/** The leaderboard over whole runs of the contract. */
module BoardRuns {
  import opened Base
  import opened Leaderboard
  import opened Ledger
  import opened Calls
  import opened Frames
  import Runs

  /** Every credit of the first `k` calls, in the order the settlements recorded them. */
  function CreditsOf(w: World, calls: seq<Call>, k: nat): History
    requires k <= |calls|
  {
    if k == 0 then Nobody
    else
      var before := Run(w, calls, k - 1);
      var winners := if Step(before, calls[k - 1]).Ok? then Winners(before, calls[k - 1]) else [];
      WithCredits(CreditsOf(w, calls, k - 1), winners, |winners|)
  }

  /** In every run each stored count is the number of times its worker was credited, and the bounded board,
      which never looks at a dropped entry again, is the exact top twenty of all workers ever credited:
      ordered by count, and among equals by who got there first. */
  lemma {:induction false} BoardExactInEveryRun(w: World, calls: seq<Call>, k: nat)
    requires k <= |calls| && Runs.Deployed(w)
    ensures BoardAfter(CreditsOf(w, calls, k)) == Ok(Run(w, calls, k).esc.board)
    ensures ExactTop(CreditsOf(w, calls, k), Run(w, calls, k).esc.board)
  {
    hide Step, Winners, RecordAll, ExactTop;
    if k > 0 {
      BoardExactInEveryRun(w, calls, k - 1);
      var before := Run(w, calls, k - 1);
      StepFramed(before, calls[k - 1]);
      var winners := if Step(before, calls[k - 1]).Ok? then Winners(before, calls[k - 1]) else [];
      RecordAllExtends(CreditsOf(w, calls, k - 1), before.esc.board, winners, |winners|);
    }
    BoardIsExactTop(CreditsOf(w, calls, k), Run(w, calls, k).esc.board);
  }
}
