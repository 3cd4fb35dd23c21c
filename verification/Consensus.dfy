/** Resolution from raw answers: who agreed, who alone did not. */
module Consensus {
  import opened Base
  import opened Leaderboard
  import opened Settlement
  import opened Ledger

  datatype Answer = Answer(worker: Address, hash: int)

  /** All answers other than number `skip` are the same. */
  predicate Unanimous(answers: seq<Answer>, skip: int) {
    forall i, j :: 0 <= i < |answers| && 0 <= j < |answers| && i != skip && j != skip ==>
      answers[i].hash == answers[j].hash
  }

  /** `answers[i]` alone disagrees with a unanimous rest of at least two. */
  predicate LoneDissenter(answers: seq<Answer>, i: int) {
    && |answers| >= 3 && 0 <= i < |answers|
    && (forall j :: 0 <= j < |answers| && j != i ==> answers[j].hash != answers[i].hash)
    && Unanimous(answers, i)
  }

  /** At most one answer can be the lone dissenter, and then the quorum is not unanimous. */
  lemma DissenterUnique(answers: seq<Answer>, i: int, j: int)
    requires LoneDissenter(answers, i)
    ensures LoneDissenter(answers, j) ==> i == j
    ensures !Unanimous(answers, -1)
  {
    var k := if i == 0 then 1 else 0;
    assert answers[k].hash != answers[i].hash;
    var m := if i != 0 && j != 0 then 0 else if i != 1 && j != 1 then 1 else 2;
    assert 0 <= j < |answers| && j != i ==> answers[m].hash == answers[j].hash;
  }

  function FindDissenter(answers: seq<Answer>, from: nat): (r: Option<nat>)
    ensures r.Some? ==> LoneDissenter(answers, r.value)
    ensures r.None? ==> forall i :: from <= i < |answers| ==> !LoneDissenter(answers, i)
    decreases |answers| - from
  {
    if from >= |answers| then None
    else if LoneDissenter(answers, from) then Some(from)
    else FindDissenter(answers, from + 1)
  }

  /** None when everyone agrees, the lone dissenter when there is one, an error for any other shape. */
  function Dissenter(answers: seq<Answer>): (r: Result<Option<nat>>)
    ensures r.Ok? && r.value.Some? ==> LoneDissenter(answers, r.value.value)
    ensures r == Ok(None) <==> Unanimous(answers, -1)
  {
    if Unanimous(answers, -1) then Ok(None)
    else
      var i := FindDissenter(answers, 0);
      if i.Some? then Ok(i) else Err(NoUnanimousConsensus)
  }

  /** The one error is for answers with neither shape. */
  lemma DissenterDecides(answers: seq<Answer>)
    ensures Dissenter(answers).Ok? <==> Unanimous(answers, -1) || exists i :: LoneDissenter(answers, i)
    ensures Dissenter(answers).Err? ==> Dissenter(answers).error == NoUnanimousConsensus
  {
    if i :| LoneDissenter(answers, i) {
      assert 0 <= i < |answers|;
    }
  }

  method UnanimousDissenter(answers: seq<Answer>) returns (r: Result<Option<nat>>)
    requires |answers| > 0
    ensures r == Dissenter(answers)
    ensures r == Ok(None) <==> Unanimous(answers, -1)
    ensures forall i: nat :: r == Ok(Some(i)) <==> LoneDissenter(answers, i)
    ensures r.Err? ==> r.error == NoUnanimousConsensus
  {
    var n, first := |answers|, answers[0].hash;
    var mismatches, mismatchIdx := 0, 0;
    for i := 1 to n
      invariant 0 <= mismatches < i && (mismatches > 0 ==> 1 <= mismatchIdx < i && answers[mismatchIdx].hash != first)
      invariant mismatches == 0 ==> forall j :: 0 <= j < i ==> answers[j].hash == first
      invariant mismatches == 1 ==> forall j :: 0 <= j < i && j != mismatchIdx ==> answers[j].hash == first
      invariant mismatches > 1 ==>
                  exists a, b :: 1 <= a < b < i && answers[a].hash != first && answers[b].hash != first
      invariant mismatches < i - 1 ==> exists a :: 1 <= a < i && answers[a].hash == first
      invariant mismatches == i - 1 ==> forall j :: 1 <= j < i ==> answers[j].hash != first
    {
      if answers[i].hash != first {
        mismatches := mismatches + 1;
        mismatchIdx := i;
      }
    }
    forall i: nat, j: nat | LoneDissenter(answers, i) && LoneDissenter(answers, j) ensures i == j {
      DissenterUnique(answers, i, j);
    }
    if mismatches == 0 {
      return Ok(None);
    }
    assert !Unanimous(answers, -1) by { assert answers[mismatchIdx].hash != answers[0].hash; }
    if n < 3 {
      return Err(NoUnanimousConsensus);
    }
    if mismatches == 1 {
      assert LoneDissenter(answers, mismatchIdx);
      return Ok(Some(mismatchIdx));
    }
    var a, b :| 1 <= a < b < n && answers[a].hash != first && answers[b].hash != first;
    forall i | 1 <= i < n ensures !LoneDissenter(answers, i) {
      var other := if i == a then b else a;
      assert answers[0].hash != answers[other].hash;
    }
    if mismatches == n - 1 {
      var second := answers[1].hash;
      for i := 2 to n
        invariant forall j :: 1 <= j < i ==> answers[j].hash == second
      {
        if answers[i].hash != second {
          assert !Unanimous(answers, 0);
          return Err(NoUnanimousConsensus);
        }
      }
      assert LoneDissenter(answers, 0);
      return Ok(Some(0));
    }
    var c :| 1 <= c < n && answers[c].hash == first;
    assert !LoneDissenter(answers, 0);
    return Err(NoUnanimousConsensus);
  }

  predicate DistinctWorkers(answers: seq<Answer>) {
    forall i, j :: 0 <= i < j < |answers| ==> answers[i].worker != answers[j].worker
  }

  /** The workers of the first `k` answers, leaving out number `skip`. */
  function Agreeing(answers: seq<Answer>, k: nat, skip: int): seq<Address>
    requires k <= |answers|
  {
    if k == 0 then []
    else Agreeing(answers, k - 1, skip) + if k - 1 == skip then [] else [answers[k - 1].worker]
  }

  /** Credited workers and slashed losers. A dissenter not yet established is neither. */
  function Lists(board: Board, established: nat, answers: seq<Answer>, dissenter: Option<nat>): Verdict
    requires dissenter.Some? ==> dissenter.value < |answers|
  {
    match dissenter
    case None => Verdict(Agreeing(answers, |answers|, -1), [])
    case Some(i) =>
      Verdict(Agreeing(answers, |answers|, i),
              if CountOf(board, answers[i].worker) >= established then [answers[i].worker] else [])
  }

  function ResolveByConsensus(w: World, id: QuestionId, answers: seq<Answer>): Result<World> {
    if |answers| == 0 then Err(EmptyAnswerSet)
    else if |answers| > MAX_QUORUM_SIZE then Err(QuorumTooLarge)
    else if !DistinctWorkers(answers) then Err(DuplicateAnswerAddress)
    else
      var dissenter :- Dissenter(answers);
      var lists := Lists(w.esc.board, w.esc.config.established, answers, dissenter);
      Resolve(w, id, lists.workers, lists.losers)
  }

  lemma {:induction false} AgreeingWorkers(answers: seq<Answer>, k: nat, skip: int)
    requires k <= |answers| && DistinctWorkers(answers)
    ensures var ws := Agreeing(answers, k, skip);
            && |ws| == k - (if 0 <= skip < k then 1 else 0) && NoDup(ws)
            && forall x :: x in ws <==> exists i :: 0 <= i < k && i != skip && answers[i].worker == x
  {
    if k > 0 {
      AgreeingWorkers(answers, k - 1, skip);
      var before, last := Agreeing(answers, k - 1, skip), answers[k - 1].worker;
      assert last !in before;
      forall x
        ensures x in Agreeing(answers, k, skip) <==> exists i :: 0 <= i < k && i != skip && answers[i].worker == x
      {
        if x in before {
          var i :| 0 <= i < k - 1 && i != skip && answers[i].worker == x;
        }
        if x == last && k - 1 != skip {
          assert answers[k - 1].worker == x;
        }
        if exists i :: 0 <= i < k && i != skip && answers[i].worker == x {
          var i :| 0 <= i < k && i != skip && answers[i].worker == x;
          assert i < k - 1 ==> x in before;
        }
      }
    }
  }

  /** `x` gave an answer, and it is not the lone dissenter's. */
  ghost predicate Agreed(answers: seq<Answer>, x: Address) {
    exists i :: 0 <= i < |answers| && answers[i].worker == x && !LoneDissenter(answers, i)
  }

  /** `x` gave the one answer all others contradict. */
  ghost predicate Dissented(answers: seq<Answer>, x: Address) {
    exists i :: 0 <= i < |answers| && answers[i].worker == x && LoneDissenter(answers, i)
  }

  /** Who is credited: everyone but the lone dissenter. Who is slashed: the lone dissenter, once its resolved
      answers reach the threshold. */
  lemma ConsensusNames(board: Board, established: nat, answers: seq<Answer>, x: Address)
    requires DistinctWorkers(answers) && Dissenter(answers).Ok?
    ensures var lists := Lists(board, established, answers, Dissenter(answers).value);
            && (x in lists.workers <==> Agreed(answers, x))
            && (x in lists.losers <==> Dissented(answers, x) && CountOf(board, x) >= established)
  {
    hide Unanimous;
    var dissenter := Dissenter(answers).value;
    var skip := if dissenter.Some? then dissenter.value else -1;
    AgreeingWorkers(answers, |answers|, skip);
    forall i | 0 <= i < |answers| ensures LoneDissenter(answers, i) <==> i == skip {
      OnlyDissenter(answers, i);
    }
  }

  lemma OnlyDissenter(answers: seq<Answer>, i: int)
    requires Dissenter(answers).Ok?
    ensures LoneDissenter(answers, i) <==> Dissenter(answers).value == Some(i)
  {
    hide LoneDissenter, Unanimous;
    var dissenter := Dissenter(answers).value;
    if LoneDissenter(answers, i) {
      DissenterUnique(answers, i, i);
      DissenterUnique(answers, i, dissenter.value);
    }
  }

  /** Whatever the answers, the lists handed to the settlement credit at least one worker, slash at
      most one, and name nobody twice, so its list validation cannot reject them. */
  lemma ConsensusListsValid(board: Board, established: nat, answers: seq<Answer>)
    requires 0 < |answers| <= MAX_QUORUM_SIZE && DistinctWorkers(answers)
    requires Dissenter(answers).Ok?
    ensures var lists := Lists(board, established, answers, Dissenter(answers).value);
            && |lists.workers| >= 1 && |lists.losers| <= 1
            && |lists.workers| + |lists.losers| <= |answers|
            && DistinctLists(lists.workers, lists.losers)
  {
    var dissenter := Dissenter(answers).value;
    AgreeingWorkers(answers, |answers|, if dissenter.Some? then dissenter.value else -1);
    var lists := Lists(board, established, answers, dissenter);
    assert lists.losers != [] ==> lists.losers[0] !in lists.workers;
  }
}
