/** The scoped absence claim over whole histories. */
module CounterAbsence {
  import opened Collections
  import opened CounterAuthority
  import opened CounterStep
  import opened CounterRun
  import opened CounterHistory

  /** As long as nothing has been verified, a counted candidate keeps some query open. */
  lemma {:induction false} UnverifiedStaysOpen(plan: Plan, runs: seq<Providers>)
    requires plan.Valid() && runs != []
    requires NothingVerified(Records(plan, runs)) && Touched(Records(plan, runs))
    ensures SomeOpen(Records(plan, runs))
  {
    hide Execute;
    hide SomeOpen;
    hide NothingVerified;
    hide Touched;
    var rest := runs[..|runs| - 1];
    HistoryResumable(plan, rest);
    if rest != [] && NothingVerified(Records(plan, rest)) && Touched(Records(plan, rest)) {
      UnverifiedStaysOpen(plan, rest);
    }
    ResultOpen(plan, runs[|runs| - 1], Resume(plan, rest));
  }

  /** Once a record counts a candidate, every later one does. */
  lemma TouchedStays(plan: Plan, runs: seq<Providers>, j: nat)
    requires plan.Valid() && 1 <= j <= |runs|
    requires Touched(Records(plan, runs[..j]))
    ensures Touched(Records(plan, runs))
  {
    RecordsGrow(plan, runs, j);
    hide LastRun;
    var i :| 0 <= i < |Records(plan, runs[..j])| && Records(plan, runs[..j])[i].candidateCount > 0;
    assert Grows(Records(plan, runs[..j])[i], Records(plan, runs)[i]);
  }

  /** A candidate is counted exactly when some search of the history returned one. */
  lemma {:induction false} TouchedBySearch(plan: Plan, runs: seq<Providers>)
    requires plan.Valid() && runs != []
    requires Touched(Records(plan, runs))
    ensures exists k, s :: 0 <= k < |runs| && s in RunAt(plan, runs, k).searches && ReturnsCandidates(s.outcome)
  {
    hide Execute;
    hide ReturnsCandidates;
    var rest := runs[..|runs| - 1];
    HistoryResumable(plan, rest);
    ResultTraces(plan, runs[|runs| - 1], Resume(plan, rest));
    assert runs[..|runs| - 1 + 1] == runs;
    if s :| s in LastRun(plan, runs).searches && ReturnsCandidates(s.outcome) {
      assert s in RunAt(plan, runs, |runs| - 1).searches;
    } else {
      TouchedBySearch(plan, rest);
      var k, s :| 0 <= k < |rest| && s in RunAt(plan, rest, k).searches && ReturnsCandidates(s.outcome);
      PrefixPrefix(runs, k + 1, |runs| - 1);
      assert s in RunAt(plan, runs, k).searches;
    }
  }

  /** A history that has counted no candidate has charged nothing. */
  lemma {:induction false} UntouchedIsFree(plan: Plan, runs: seq<Providers>)
    requires plan.Valid() && runs != []
    requires !Touched(Records(plan, runs))
    ensures LastRun(plan, runs).result.progress.attempts == 0 && !LastRun(plan, runs).result.budgetExhausted
    ensures LastRun(plan, runs).calls == []
    ensures LastRun(plan, runs).result.verifiedSourceIds == {}
  {
    hide Execute;
    hide Touched;
    var rest := runs[..|runs| - 1];
    HistoryResumable(plan, rest);
    if rest != [] {
      if Touched(Records(plan, rest)) {
        TouchedStays(plan, runs, |runs| - 1);
      }
      UntouchedIsFree(plan, rest);
    }
    ResultUntouched(plan, runs[|runs| - 1], Resume(plan, rest));
  }

  /** The absence claim is sound and complete over whole histories: a run allows it exactly
      when every query is recorded as not found and no search, in this run or any earlier one,
      has ever returned a candidate; and then no run has called verification. */
  lemma AbsenceOverHistory(plan: Plan, runs: seq<Providers>)
    requires plan.Valid() && runs != []
    ensures LastRun(plan, runs).result.absenceClaimAllowed <==>
              && (forall r | r in Records(plan, runs) :: r.status.NotFound?)
              && (forall k, s | 0 <= k < |runs| && s in RunAt(plan, runs, k).searches :: !ReturnsCandidates(s.outcome))
    ensures LastRun(plan, runs).result.absenceClaimAllowed ==>
              forall k | 0 <= k < |runs| :: RunAt(plan, runs, k).calls == []
  {
    hide Execute;
    hide ReturnsCandidates;
    var rest := runs[..|runs| - 1];
    HistoryResumable(plan, rest);
    ResultAbsence(plan, runs[|runs| - 1], Resume(plan, rest));
    ResultSources(plan, runs[|runs| - 1], Resume(plan, rest));
    if Touched(Records(plan, runs)) {
      TouchedBySearch(plan, runs);
      if LastRun(plan, runs).result.absenceClaimAllowed {
        PriorSourcesNone(Records(plan, runs));
        UnverifiedStaysOpen(plan, runs);
      }
    } else {
      UntouchedIsFree(plan, runs);
      forall k | 0 <= k < |runs|
        ensures RunAt(plan, runs, k).calls == []
        ensures forall s | s in RunAt(plan, runs, k).searches :: !ReturnsCandidates(s.outcome)
      {
        var first := runs[..k + 1];
        if Touched(Records(plan, first)) {
          TouchedStays(plan, runs, k + 1);
        }
        UntouchedIsFree(plan, first);
        HistoryResumable(plan, first[..k]);
        ResultTraces(plan, first[k], Resume(plan, first[..k]));
      }
    }
  }
}
