/** Two instances and everything that can happen to either: each stays solvent, and every obligation ever
    opened on either side is live on exactly one of them or was settled exactly once. */
module Obligations {
  import opened Base
  import opened PendingIndex
  import opened Ledger
  import opened Calls
  import opened Invariant
  import opened Runs
  import opened Lifecycle
  import opened Frames
  import opened Migration

  datatype JointCall =
    | AtSource(call: Call)
    | AtTarget(call: Call)
    | MoveQuestions(ids: seq<QuestionId>)
    | MoveBalances(addresses: seq<Address>)
    | NameSource(source: Option<Address>)

  function JointStep(p: Pair, call: JointCall): Result<Pair> {
    match call
    case AtSource(c) => var v :- Step(p.SourceView(), c); Ok(p.(now := v.now, tok := v.tok, source := v.esc))
    case AtTarget(c) => var v :- Step(p.TargetView(), c); Ok(p.(now := v.now, tok := v.tok, target := v.esc))
    case MoveQuestions(ids) => var r :- MigratePending(p, ids); Ok(r.0)
    case MoveBalances(addresses) => var r :- MigrateBalances(p, addresses); Ok(r.0)
    case NameSource(source) =>
      if source == Some(p.target.me) then Err(InvalidMigrationTarget) else Ok(p.(target := p.target.(source := source)))
  }

  function JointAfter(p: Pair, call: JointCall): Pair {
    var r := JointStep(p, call);
    if r.Ok? then r.value else p
  }

  /** The first `k` calls of a run of both instances. */
  function JointRun(p: Pair, calls: seq<JointCall>, k: nat): Pair
    requires k <= |calls|
  {
    if k == 0 then p else JointAfter(JointRun(p, calls, k - 1), calls[k - 1])
  }

  // ---- both stay solvent ---------------------------------------------------------------

  /** One side's own call, seen with the other side's store. */
  lemma BesideSafe(w: World, v: World, other: Store, exact: bool)
    requires Advances(w, v, exact) && Inv(w.(esc := other)) && other.me != w.esc.me
    ensures Inv(v.(esc := other))
  {
    hide SumBy, Books, Tables, Enumerates, Claims;
  }

  lemma AdvancesMeans(w: World, v: World, exact: bool)
    requires Advances(w, v, exact)
    ensures Inv(v) && v.contracts == w.contracts && v.esc.me == w.esc.me
  {
    hide Inv;
  }

  lemma NameSafe(p: Pair, source: Option<Address>)
    requires BothInv(p)
    ensures BothInv(p.(target := p.target.(source := source)))
  {
    hide SumBy, Enumerates, Tables;
  }

  lemma JointStepSafe(p: Pair, call: JointCall)
    requires BothInv(p)
    ensures JointStep(p, call) != Err(ArithmeticOverflow) && BothInv(JointAfter(p, call))
  {
    hide Inv, MovedTogether, Step, MigratePending, MigrateAddresses, SumBy, HoldingsMoved, ArrivedAsLeft, OnlyBalances,
         Advances;
    match call
    case AtSource(c) =>
      StepSafe(p.SourceView(), c);
      if Step(p.SourceView(), c).Ok? {
        BesideSafe(p.SourceView(), Step(p.SourceView(), c).value, p.target, Clean(p.SourceView(), c));
        AdvancesMeans(p.SourceView(), Step(p.SourceView(), c).value, Clean(p.SourceView(), c));
      }
    case AtTarget(c) =>
      StepSafe(p.TargetView(), c);
      if Step(p.TargetView(), c).Ok? {
        BesideSafe(p.TargetView(), Step(p.TargetView(), c).value, p.source, Clean(p.TargetView(), c));
        AdvancesMeans(p.TargetView(), Step(p.TargetView(), c).value, Clean(p.TargetView(), c));
      }
    case MoveQuestions(ids) =>
      BatchAllOrNothing(p, ids);
      if MigratePending(p, ids).Ok? {
        MovedBoth(p, MigratePending(p, ids).value.0);
      }
    case MoveBalances(addresses) =>
      BalancesConserved(p, addresses, |addresses|);
      if MigrateBalances(p, addresses).Ok? {
        MovedBoth(p, MigrateBalances(p, addresses).value.0);
      }
    case NameSource(source) => NameSafe(p, source);
  }

  /** Two fresh instances on one sound token. */
  predicate BothDeployed(p: Pair) {
    Runs.Deployed(p.SourceView()) && Runs.Deployed(p.TargetView()) && p.source.me != p.target.me
  }

  lemma {:induction false} BothAlwaysSolvent(p: Pair, calls: seq<JointCall>, k: nat)
    requires k <= |calls| && BothDeployed(p) && SoundToken(p.tok)
    ensures BothInv(JointRun(p, calls, k))
    ensures forall call :: JointStep(JointRun(p, calls, k), call) != Err(ArithmeticOverflow)
  {
    hide JointStep, Inv;
    if k == 0 {
      DeployedSafe(p.SourceView());
      DeployedSafe(p.TargetView());
    } else {
      BothAlwaysSolvent(p, calls, k - 1);
      JointStepSafe(JointRun(p, calls, k - 1), calls[k - 1]);
    }
    forall call ensures JointStep(JointRun(p, calls, k), call) != Err(ArithmeticOverflow) {
      JointStepSafe(JointRun(p, calls, k), call);
    }
  }

  // ---- obligations -------------------------------------------------------------------------

  datatype Terms = Terms(payer: Address, amount: int, createdAt: nat, timeout: nat)

  function TermsOf(q: Question): Terms {
    Terms(q.payer, q.amount, q.createdAt, q.timeout)
  }

  /** A ledger kept beside the run. An obligation is numbered by the call that opened it. For each side it
      tells which obligation a live question stands for; `closed` counts the settlements of each obligation,
      and `terms` are those it was opened with. */
  datatype Tags = Tags(atSource: map<QuestionId, nat>, atTarget: map<QuestionId, nat>, closed: multiset<nat>,
                       terms: map<nat, Terms>)

  ghost predicate WasPaid(questions: map<QuestionId, Question>, id: QuestionId) {
    HasStatus(questions, id, Resolved) || HasStatus(questions, id, Refunded)
  }

  /** The obligations of one side whose questions are now resolved or refunded. */
  ghost function Paid(tags: map<QuestionId, nat>, questions: map<QuestionId, Question>): set<nat> {
    set id | id in tags && WasPaid(questions, id) :: tags[id]
  }

  /** A question that is live now keeps its obligation; a newly live one is the obligation `n`. */
  ghost function Kept(tags: map<QuestionId, nat>, questions: map<QuestionId, Question>, n: nat): map<QuestionId, nat> {
    map id | id in LiveIds(questions) :: if id in tags then tags[id] else n
  }

  /** The obligations that left the source for the target. */
  ghost function Travelling(tags: map<QuestionId, nat>, source: map<QuestionId, Question>): map<QuestionId, nat> {
    map id | id in tags && HasStatus(source, id, Migrated) :: tags[id]
  }

  ghost function NewTerms(terms: map<nat, Terms>, known: map<QuestionId, nat>, questions: map<QuestionId, Question>,
                          n: nat)
    : map<nat, Terms>
  {
    var newcomer := LiveIds(questions) - known.Keys;
    if newcomer == {} then terms else var id :| id in newcomer; terms[n := TermsOf(questions[id])]
  }

  /** The ledger after call number `n`, read off the questions alone. */
  ghost function Retag(t: Tags, v: Pair, n: nat): Tags {
    var arriving := t.atTarget + Travelling(t.atSource, v.source.questions);
    Tags(Kept(t.atSource, v.source.questions, n),
         Kept(arriving, v.target.questions, n),
         t.closed + multiset(Paid(t.atSource, v.source.questions)) + multiset(Paid(t.atTarget, v.target.questions)),
         NewTerms(NewTerms(t.terms, t.atSource, v.source.questions, n), arriving, v.target.questions, n))
  }

  ghost function TagsAt(p: Pair, calls: seq<JointCall>, k: nat): Tags
    requires k <= |calls|
  {
    if k == 0 then Tags(map[], map[], multiset{}, map[])
    else
      var before := JointRun(p, calls, k - 1);
      if JointStep(before, calls[k - 1]).Err? then TagsAt(p, calls, k - 1)
      else Retag(TagsAt(p, calls, k - 1), JointRun(p, calls, k), k - 1)
  }

  /** One side's live questions stand for distinct obligations, on the terms these were opened with. */
  ghost predicate SideTags(tags: map<QuestionId, nat>, questions: map<QuestionId, Question>, terms: map<nat, Terms>) {
    && tags.Keys == LiveIds(questions)
    && (forall id :: id in tags ==> tags[id] in terms && terms[tags[id]] == TermsOf(questions[id]))
    && (forall i, j :: i in tags && j in tags && tags[i] == tags[j] ==> i == j)
  }

  function Count(tags: map<QuestionId, nat>, x: nat): nat {
    if x in tags.Values then 1 else 0
  }

  /** Every obligation is live at the source, or live at the target, or settled; once. */
  ghost predicate InOnePlace(t: Tags, x: nat) {
    Count(t.atSource, x) + Count(t.atTarget, x) + t.closed[x] == 1
  }

  ghost predicate Accounted(p: Pair, t: Tags, n: nat) {
    && SideTags(t.atSource, p.source.questions, t.terms) && SideTags(t.atTarget, p.target.questions, t.terms)
    && (forall x :: x in t.terms ==> x < n && InOnePlace(t, x))
    && (forall x :: x in t.closed ==> x in t.terms)
  }

  // ---- one side's own call ------------------------------------------------------------------

  /** One call on one side: live questions stay on their terms or are paid, and at most one id opens. */
  ghost predicate Evolution(before: map<QuestionId, Question>, after: map<QuestionId, Question>,
                            newcomer: Option<QuestionId>) {
    && (forall id :: id in LiveIds(before) ==>
          id in after && (if after[id].Live() then TermsOf(after[id]) == TermsOf(before[id]) else WasPaid(after, id)))
    && LiveIds(after) <= LiveIds(before) + (if newcomer.Some? then {newcomer.value} else {})
    && (newcomer.Some? ==> newcomer.value in LiveIds(after) - LiveIds(before))
  }

  function Opens(w: World, call: Call): Option<QuestionId> {
    if call.DoSweep? then None
    else
      match Writes(w, call)
      case Some(Write(id, q)) => if q.status == Pending then Some(id) else None
      case None => None
  }

  lemma StepIsEvolution(w: World, call: Call)
    requires Step(w, call).Ok?
    ensures Evolution(w.esc.questions, Step(w, call).value.esc.questions, Opens(w, call))
  {
    hide Step, Writes;
    if call.DoSweep? {
      SweepStep(w, call.ids);
      SweepIsEvolution(w, call.ids);
    } else {
      StepFramed(w, call);
    }
  }

  lemma SweepIsEvolution(w: World, ids: seq<QuestionId>)
    requires Sweep(w, ids, |ids|).Ok?
    ensures Evolution(w.esc.questions, Sweep(w, ids, |ids|).value.0.esc.questions, None)
  {
    hide Sweep;
    var v := Sweep(w, ids, |ids|).value.0;
    var before, after := w.esc.questions, v.esc.questions;
    forall id | id in LiveIds(before)
      ensures id in after && (if after[id].Live() then TermsOf(after[id]) == TermsOf(before[id])
                              else WasPaid(after, id))
    {
      SweepEvolves(w, ids, |ids|, id);
    }
    forall id | id in LiveIds(after) ensures id in LiveIds(before) {
      SweepEvolves(w, ids, |ids|, id);
    }
  }

  /** Each obligation of `terms` that was on this side is still there or among the paid ones; `n` is new. */
  ghost predicate Follows(tags: map<QuestionId, nat>, kept: map<QuestionId, nat>, paid: set<nat>,
                          terms: map<nat, Terms>,
                          n: nat, newcomer: bool) {
    && (newcomer <==> n in kept.Values)
    && (forall x :: x in terms ==> Count(kept, x) + multiset(paid)[x] == Count(tags, x))
    && (forall x :: x in paid ==> x in terms)
  }

  lemma SideEvolves(tags: map<QuestionId, nat>, before: map<QuestionId, Question>, after: map<QuestionId, Question>,
                    newcomer: Option<QuestionId>, terms: map<nat, Terms>, n: nat)
    requires SideTags(tags, before, terms) && Evolution(before, after, newcomer) && n !in terms
    ensures var kept, terms' := Kept(tags, after, n), NewTerms(terms, tags, after, n);
            && SideTags(kept, after, terms')
            && terms' == (if newcomer.Some? then terms[n := TermsOf(after[newcomer.value])] else terms)
            && (newcomer.Some? ==> newcomer.value in after)
            && Follows(tags, kept, Paid(tags, after), terms, n, newcomer.Some?)
  {
  }

  lemma OwnCallAccounted(p: Pair, t: Tags, call: JointCall, n: nat)
    requires Accounted(p, t, n) && (call.AtSource? || call.AtTarget?) && JointStep(p, call).Ok?
    ensures Accounted(JointStep(p, call).value, Retag(t, JointStep(p, call).value, n), n + 1)
  {
    hide Step;
    var v := JointStep(p, call).value;
    var here := match call case AtSource(c) => Opens(p.SourceView(), c) case _ => None;
    var there := match call case AtTarget(c) => Opens(p.TargetView(), c) case _ => None;
    if call.AtSource? {
      StepIsEvolution(p.SourceView(), call.call);
    } else {
      StepIsEvolution(p.TargetView(), call.call);
    }
    StoodStill(p.source.questions);
    StoodStill(p.target.questions);
    NoneTravelling(t.atSource, p.source.questions, v.source.questions, here);
    TagsFollow(p, t, v, here, there, n);
  }

  lemma StoodStill(questions: map<QuestionId, Question>)
    ensures Evolution(questions, questions, None)
  {
  }

  lemma NoneTravelling(tags: map<QuestionId, nat>, before: map<QuestionId, Question>, after: map<QuestionId, Question>,
                       newcomer: Option<QuestionId>)
    requires tags.Keys == LiveIds(before) && Evolution(before, after, newcomer)
    ensures Travelling(tags, after) == map[]
  {
  }

  lemma TagsFollow(p: Pair, t: Tags, v: Pair, here: Option<QuestionId>, there: Option<QuestionId>, n: nat)
    requires Accounted(p, t, n) && (here.None? || there.None?)
    requires Evolution(p.source.questions, v.source.questions, here)
    requires Evolution(p.target.questions, v.target.questions, there)
    requires Travelling(t.atSource, v.source.questions) == map[]
    ensures Accounted(v, Retag(t, v, n), n + 1)
  {
    hide Evolution, Kept, NewTerms, Paid, Travelling, SideTags, Retag, Follows, InOnePlace;
    var terms := NewTerms(t.terms, t.atSource, v.source.questions, n);
    TagsKeys(p, t, n);
    SideEvolves(t.atSource, p.source.questions, v.source.questions, here, t.terms, n);
    SideEvolves(t.atTarget, p.target.questions, v.target.questions, there, t.terms, n);
    if there.None? {
      NoNewTerms(t.atTarget, p.target.questions, v.target.questions, terms, n);
    }
    if here.Some? {
      TermsGrow(Kept(t.atTarget, v.target.questions, n), v.target.questions, t.terms, n,
                TermsOf(v.source.questions[here.value]));
    } else if there.Some? {
      TermsGrow(Kept(t.atSource, v.source.questions, n), v.source.questions, t.terms, n,
                TermsOf(v.target.questions[there.value]));
    }
    RetagIs(t, v, n);
    CountsFollow(t, Retag(t, v, n), n, Paid(t.atSource, v.source.questions), Paid(t.atTarget, v.target.questions),
                 here.Some?, there.Some?);
  }

  lemma TagsKeys(p: Pair, t: Tags, n: nat)
    requires Accounted(p, t, n)
    ensures t.atSource.Keys == LiveIds(p.source.questions) && t.atTarget.Keys == LiveIds(p.target.questions)
    ensures n !in t.terms
  {
  }

  /** When nothing travels, each side keeps its own. */
  lemma RetagIs(t: Tags, v: Pair, n: nat)
    requires Travelling(t.atSource, v.source.questions) == map[]
    ensures var t' := Retag(t, v, n);
            && t'.atSource == Kept(t.atSource, v.source.questions, n)
            && t'.atTarget == Kept(t.atTarget, v.target.questions, n)
            && t'.closed == t.closed + multiset(Paid(t.atSource, v.source.questions))
               + multiset(Paid(t.atTarget, v.target.questions))
            && t'.terms == NewTerms(NewTerms(t.terms, t.atSource, v.source.questions, n), t.atTarget,
                                    v.target.questions, n)
  {
    hide Kept, Paid, NewTerms, Travelling;
    assert t.atTarget + map[] == t.atTarget;
  }

  lemma CountsFollow(t: Tags, u: Tags, n: nat, paid: set<nat>, paid': set<nat>, here: bool, there: bool)
    requires forall x :: x in t.terms ==> x < n && InOnePlace(t, x)
    requires forall x :: x in t.closed ==> x in t.terms
    requires n !in t.terms && !(here && there)
    requires u.closed == t.closed + multiset(paid) + multiset(paid')
    requires u.terms.Keys == if here || there then t.terms.Keys + {n} else t.terms.Keys
    requires Follows(t.atSource, u.atSource, paid, t.terms, n, here)
    requires Follows(t.atTarget, u.atTarget, paid', t.terms, n, there)
    ensures forall x :: x in u.terms ==> x < n + 1 && InOnePlace(u, x)
    ensures forall x :: x in u.closed ==> x in u.terms
  {
  }

  lemma NoNewTerms(tags: map<QuestionId, nat>, before: map<QuestionId, Question>, after: map<QuestionId, Question>,
                   terms: map<nat, Terms>, n: nat)
    requires tags.Keys == LiveIds(before) && Evolution(before, after, None)
    ensures NewTerms(terms, tags, after, n) == terms
  {
  }

  lemma TermsGrow(tags: map<QuestionId, nat>, questions: map<QuestionId, Question>, terms: map<nat, Terms>, n: nat,
                  fixed: Terms)
    requires SideTags(tags, questions, terms) && n !in terms
    ensures SideTags(tags, questions, terms[n := fixed])
  {
  }

  // ---- moving questions ------------------------------------------------------------------------

  /** The live questions of the two sides when `moved` crosses over. */
  ghost predicate Crossing(p: Pair, v: Pair, moved: set<QuestionId>) {
    && moved <= LiveIds(p.source.questions) && moved !! p.target.questions.Keys
    && LiveIds(v.source.questions) == LiveIds(p.source.questions) - moved
    && LiveIds(v.target.questions) == LiveIds(p.target.questions) + moved
    && (forall id :: id in moved ==> HasStatus(v.source.questions, id, Migrated))
    && (forall id :: id in moved ==> v.target.questions[id] == p.source.questions[id])
    && (forall id :: id in LiveIds(v.source.questions) ==> v.source.questions[id] == p.source.questions[id])
    && (forall id :: id in LiveIds(p.target.questions) ==> v.target.questions[id] == p.target.questions[id])
  }

  lemma BatchCrosses(p: Pair, v: Pair, ids: seq<QuestionId>)
    requires ArrivedAsLeft(p, v, ids)
    requires forall id :: id in ids ==> HasStatus(p.source.questions, id, Pending) && id !in p.target.questions
    ensures Crossing(p, v, (set id | id in ids))
  {
    forall id | id !in ids
      ensures id in LiveIds(v.source.questions) <==> id in LiveIds(p.source.questions)
      ensures id in LiveIds(v.target.questions) <==> id in LiveIds(p.target.questions)
      ensures id in LiveIds(v.source.questions) ==> v.source.questions[id] == p.source.questions[id]
      ensures id in LiveIds(p.target.questions) ==> v.target.questions[id] == p.target.questions[id]
    {
      assert Lookup(v.SourceView(), id) == Lookup(p.SourceView(), id);
      assert Lookup(v.TargetView(), id) == Lookup(p.TargetView(), id);
    }
  }

  /** What a crossing does to the ledger: the tags of the moved questions change sides. */
  lemma RetagCrossing(p: Pair, t: Tags, v: Pair, moved: set<QuestionId>, n: nat)
    requires Crossing(p, v, moved)
    requires t.atSource.Keys == LiveIds(p.source.questions) && t.atTarget.Keys == LiveIds(p.target.questions)
    ensures var u := Retag(t, v, n);
            && u.atSource.Keys == t.atSource.Keys - moved
            && (forall id :: id in u.atSource ==> u.atSource[id] == t.atSource[id])
            && u.atTarget.Keys == t.atTarget.Keys + moved && t.atTarget.Keys !! moved
            && (forall id :: id in u.atTarget ==>
                  u.atTarget[id] == if id in moved then t.atSource[id] else t.atTarget[id])
            && u.closed == t.closed && u.terms == t.terms
  {
    TravellingIs(p, t, v, moved);
    NonePaid(t.atSource, v.source.questions, moved);
    NonePaid(t.atTarget, v.target.questions, {});
    var arriving := t.atTarget + Travelling(t.atSource, v.source.questions);
    NothingOpened(t.atSource, v.source.questions, t.terms, n);
    NothingOpened(arriving, v.target.questions, t.terms, n);
    hide Travelling, Kept, NewTerms, Paid, LiveIds;
  }

  lemma TravellingIs(p: Pair, t: Tags, v: Pair, moved: set<QuestionId>)
    requires Crossing(p, v, moved) && t.atSource.Keys == LiveIds(p.source.questions)
    ensures var travelling := Travelling(t.atSource, v.source.questions);
            travelling.Keys == moved && forall id :: id in moved ==> travelling[id] == t.atSource[id]
  {
  }

  lemma NonePaid(tags: map<QuestionId, nat>, questions: map<QuestionId, Question>, moved: set<QuestionId>)
    requires forall id :: id in tags ==> id in moved || id in LiveIds(questions)
    requires forall id :: id in moved ==> HasStatus(questions, id, Migrated)
    ensures Paid(tags, questions) == {}
  {
  }

  lemma NothingOpened(tags: map<QuestionId, nat>, questions: map<QuestionId, Question>, terms: map<nat, Terms>, n: nat)
    requires LiveIds(questions) <= tags.Keys
    ensures Kept(tags, questions, n).Keys == LiveIds(questions)
    ensures forall id :: id in LiveIds(questions) ==> Kept(tags, questions, n)[id] == tags[id]
    ensures NewTerms(terms, tags, questions, n) == terms
  {
  }

  lemma CrossingAccounted(p: Pair, t: Tags, v: Pair, moved: set<QuestionId>, n: nat)
    requires Accounted(p, t, n) && Crossing(p, v, moved)
    ensures Accounted(v, Retag(t, v, n), n + 1)
  {
    hide Retag, InOnePlace;
    RetagCrossing(p, t, v, moved, n);
    var u := Retag(t, v, n);
    forall x | x in t.terms ensures InOnePlace(u, x) {
      assert InOnePlace(t, x);
      CountMoved(t, u, moved, x);
    }
    forall i, j | i in u.atTarget && j in u.atTarget && u.atTarget[i] == u.atTarget[j] ensures i == j {
      if i in moved && j !in moved {
        Elsewhere(t, i, j);
      } else if j in moved && i !in moved {
        Elsewhere(t, j, i);
      }
    }
    hide LiveIds;
  }

  /** Two live questions on different sides are different obligations. */
  lemma Elsewhere(t: Tags, i: QuestionId, j: QuestionId)
    requires i in t.atSource && j in t.atTarget && InOnePlace(t, t.atSource[i])
    ensures t.atSource[i] != t.atTarget[j]
  {
  }

  lemma CountMoved(t: Tags, u: Tags, moved: set<QuestionId>, x: nat)
    requires InOnePlace(t, x)
    requires forall i, j :: i in t.atSource && j in t.atSource && t.atSource[i] == t.atSource[j] ==> i == j
    requires moved <= t.atSource.Keys && t.atTarget.Keys !! moved
    requires u.atSource.Keys == t.atSource.Keys - moved
             && (forall id :: id in u.atSource ==> u.atSource[id] == t.atSource[id])
    requires u.atTarget.Keys == t.atTarget.Keys + moved
    requires forall id :: id in u.atTarget ==> u.atTarget[id] == if id in moved then t.atSource[id] else t.atTarget[id]
    requires u.closed == t.closed
    ensures InOnePlace(u, x)
  {
  }

  // ---- every run ----------------------------------------------------------------------------------

  lemma UnchangedAccounted(p: Pair, t: Tags, v: Pair, n: nat)
    requires Accounted(p, t, n)
    requires v.source.questions == p.source.questions && v.target.questions == p.target.questions
    ensures Accounted(v, Retag(t, v, n), n + 1)
  {
    hide SideTags;
    StoodStill(p.source.questions);
    StoodStill(p.target.questions);
    TagsKeys(p, t, n);
    NoneTravelling(t.atSource, p.source.questions, v.source.questions, None);
    TagsFollow(p, t, v, None, None, n);
  }

  lemma MoveAccounted(p: Pair, t: Tags, ids: seq<QuestionId>, n: nat)
    requires BothInv(p) && Accounted(p, t, n) && MigratePending(p, ids).Ok?
    ensures Accounted(MigratePending(p, ids).value.0, Retag(t, MigratePending(p, ids).value.0, n), n + 1)
  {
    hide BothInv, MovedTogether, MigratePending, Accounted, Retag, ArrivedAsLeft, Crossing;
    BatchAllOrNothing(p, ids);
    var v := MigratePending(p, ids).value.0;
    forall id | id in ids ensures HasStatus(p.source.questions, id, Pending) && id !in p.target.questions {
      assert Movable(p, id);
    }
    BatchCrosses(p, v, ids);
    CrossingAccounted(p, t, v, (set id | id in ids), n);
  }

  lemma CallAccounted(p: Pair, t: Tags, call: JointCall, n: nat)
    requires BothInv(p) && Accounted(p, t, n) && JointStep(p, call).Ok?
    ensures Accounted(JointStep(p, call).value, Retag(t, JointStep(p, call).value, n), n + 1)
  {
    hide BothInv, MovedTogether, Step, MigratePending, MigrateAddresses, Accounted, Retag, HoldingsMoved;
    match call
    case AtSource(_) => OwnCallAccounted(p, t, call, n);
    case AtTarget(_) => OwnCallAccounted(p, t, call, n);
    case MoveQuestions(ids) => MoveAccounted(p, t, ids, n);
    case MoveBalances(addresses) =>
      BalancesConserved(p, addresses, |addresses|);
      UnchangedAccounted(p, t, JointStep(p, call).value, n);
    case NameSource(_) => UnchangedAccounted(p, t, JointStep(p, call).value, n);
  }

  /** Over every run of the two instances, each obligation ever opened, on either side, is live at the
      source, or live at the target, or was paid out, and exactly one of these exactly once; and while it
      is live, on whichever side, its payer, amount, opening ledger and timeout are those it was opened with. */
  lemma {:induction false} EveryObligationOnce(p: Pair, calls: seq<JointCall>, k: nat)
    requires k <= |calls| && BothDeployed(p) && SoundToken(p.tok)
    ensures Accounted(JointRun(p, calls, k), TagsAt(p, calls, k), k)
  {
    hide JointStep, BothInv, Retag;
    if k > 0 {
      EveryObligationOnce(p, calls, k - 1);
      BothAlwaysSolvent(p, calls, k - 1);
      var before := JointRun(p, calls, k - 1);
      if JointStep(before, calls[k - 1]).Ok? {
        CallAccounted(before, TagsAt(p, calls, k - 1), calls[k - 1], k - 1);
      }
    }
  }
}
