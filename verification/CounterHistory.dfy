/** Whole histories of the counter-authority search: any number of runs of one plan, each
    resuming the progress of the run before it, each with providers of its own. */
module CounterHistory {
  import opened Collections
  import opened CounterAuthority
  import opened CounterStep
  import opened CounterRun

  /** The last run of a history. The first run starts fresh. */
  function LastRun(plan: Plan, runs: seq<Providers>): Run
    requires runs != []
    decreases |runs|, 0
  {
    Execute(plan, runs[|runs| - 1], Resume(plan, runs[..|runs| - 1]))
  }

  /** The progress a history leaves behind. */
  function Resume(plan: Plan, runs: seq<Providers>): Option<Progress>
    decreases |runs|, 1
  {
    if runs == [] then None else Some(LastRun(plan, runs).result.progress)
  }

  function RunAt(plan: Plan, runs: seq<Providers>, k: nat): Run
    requires k < |runs|
  {
    LastRun(plan, runs[..k + 1])
  }

  function Records(plan: Plan, runs: seq<Providers>): seq<QueryProgress>
    requires runs != []
  {
    LastRun(plan, runs).result.progress.queries
  }

  /** Verification calls that consumed budget, over the whole history. */
  function TotalCharged(plan: Plan, runs: seq<Providers>): nat {
    if runs == [] then 0 else TotalCharged(plan, runs[..|runs| - 1]) + Charged(LastRun(plan, runs).calls)
  }

  lemma {:induction false} HistoryResumable(plan: Plan, runs: seq<Providers>)
    requires plan.Valid()
    ensures Resumable(plan, Resume(plan, runs))
  {
    if runs != [] {
      var rest := runs[..|runs| - 1];
      HistoryResumable(plan, rest);
      ResultRecords(plan, runs[|runs| - 1], Resume(plan, rest));
      hide Execute;
    }
  }

  // ----- Records over a history ---------------------------------------------------------

  /** After any history there is one record per query, in the plan's order, and a query is
      recorded as found or not found only when each candidate ever recorded for it has been
      verified: a failed, truncated or interrupted candidate never becomes a clean outcome. */
  lemma TerminalMeansVerified(plan: Plan, runs: seq<Providers>)
    requires plan.Valid() && runs != []
    ensures Ordered(plan, Records(plan, runs))
    ensures forall r | r in Records(plan, runs) ::
              !r.status.Pending? && (r.Terminal() ==> Elems(r.candidateIds) == Elems(r.verifiedIds))
  {
    HistoryResumable(plan, runs);
    hide LastRun;
    assert forall r | r in Records(plan, runs) :: Good(r);
  }

  lemma PrefixPrefix<T>(runs: seq<T>, j: nat, k: nat)
    requires j <= k <= |runs|
    ensures runs[..k][..j] == runs[..j]
  {
  }

  lemma GrowsTransitive(a: QueryProgress, b: QueryProgress, c: QueryProgress)
    requires Grows(a, b) && Grows(b, c)
    ensures Grows(a, c)
  {
  }

  /** From one run to any later one no record loses anything. */
  lemma {:induction false} RecordsGrow(plan: Plan, runs: seq<Providers>, j: nat)
    requires plan.Valid() && 1 <= j <= |runs|
    ensures |Records(plan, runs[..j])| == |Records(plan, runs)| == |plan.queries|
    ensures forall i | 0 <= i < |plan.queries| :: Grows(Records(plan, runs[..j])[i], Records(plan, runs)[i])
    decreases |runs|
  {
    hide Execute;
    hide Good;
    HistoryResumable(plan, runs);
    HistoryResumable(plan, runs[..j]);
    if j < |runs| {
      var rest := runs[..|runs| - 1];
      RecordsGrow(plan, rest, j);
      PrefixPrefix(runs, j, |runs| - 1);
      HistoryResumable(plan, rest);
      ResultRecords(plan, runs[|runs| - 1], Resume(plan, rest));
      hide Grows;
      forall i | 0 <= i < |plan.queries|
        ensures Grows(Records(plan, runs[..j])[i], Records(plan, runs)[i])
      {
        GrowsTransitive(Records(plan, runs[..j])[i], Records(plan, rest)[i], Records(plan, runs)[i]);
      }
    } else {
      assert runs[..j] == runs;
      hide LastRun;
      forall i | 0 <= i < |plan.queries|
        ensures Grows(Records(plan, runs)[i], Records(plan, runs)[i])
      {
      }
    }
  }

  lemma CursorMonotone(a: seq<QueryProgress>, b: seq<QueryProgress>, i: nat, j: nat)
    requires |a| == |b| && forall k | 0 <= k < |a| :: a[k].Terminal() ==> b[k].Terminal()
    requires CursorAt(a, i) && CursorAt(b, j)
    ensures i <= j
  {
    assert j <= |a| ==> !a[j - 1].Terminal();
  }

  lemma LastAttempts(plan: Plan, runs: seq<Providers>)
    requires plan.Valid() && runs != []
    ensures var run, rest := LastRun(plan, runs), runs[..|runs| - 1];
            && run.result.attempts == StartingAttempts(Resume(plan, rest)) + Charged(run.calls)
            && (Charged(run.calls) == 0 || run.result.attempts <= plan.scope.maxVerifications)
            && (rest == [] ==> StartingAttempts(Resume(plan, rest)) == 0)
            && (rest != [] ==> StartingAttempts(Resume(plan, rest))
                               == Max(Max(LastRun(plan, rest).result.attempts, SumAttempts(Records(plan, rest))),
                                      LegacyAttempts(Records(plan, rest))))
  {
    hide Execute;
    hide Good;
    var rest := runs[..|runs| - 1];
    HistoryResumable(plan, rest);
    ResultAttempts(plan, runs[|runs| - 1], Resume(plan, rest));
    PreviousIs(plan, Resume(plan, rest));
    if rest != [] {
      HistoryResumable(plan, rest[..|rest| - 1]);
      ResultAttempts(plan, rest[|rest| - 1], Resume(plan, rest[..|rest| - 1]));
    }
  }

  lemma {:induction false} AttemptsMonotone(plan: Plan, runs: seq<Providers>, j: nat)
    requires plan.Valid() && 1 <= j <= |runs|
    ensures LastRun(plan, runs[..j]).result.attempts <= LastRun(plan, runs).result.attempts
    decreases |runs|
  {
    hide LastRun;
    hide StartingAttempts;
    if j < |runs| {
      AttemptsMonotone(plan, runs[..|runs| - 1], j);
      PrefixPrefix(runs, j, |runs| - 1);
      LastAttempts(plan, runs);
    } else {
      assert runs[..j] == runs;
    }
  }

  /** Resumption is monotone: terminal records are never altered, no query's record loses an
      identifier, and the attempts, the cursor and the reported ids never go back. */
  lemma ResumptionIsMonotone(plan: Plan, runs: seq<Providers>, j: nat)
    requires plan.Valid() && 1 <= j <= |runs|
    ensures var a, b := LastRun(plan, runs[..j]).result, LastRun(plan, runs).result;
            && |a.progress.queries| == |b.progress.queries| == |plan.queries|
            && (forall i | 0 <= i < |plan.queries| :: Grows(a.progress.queries[i], b.progress.queries[i]))
            && a.attempts <= b.attempts
            && a.progress.nextOrdinal <= b.progress.nextOrdinal
            && a.verifiedSourceIds <= b.verifiedSourceIds
            && a.verifiedEvidenceIds <= b.verifiedEvidenceIds
            && (b.progress.Complete() <==> forall r | r in b.progress.queries :: r.Terminal())
  {
    hide Execute;
    hide Good;
    RecordsGrow(plan, runs, j);
    AttemptsMonotone(plan, runs, j);
    var last, first := runs[|runs| - 1], runs[..j];
    var rest, before := Resume(plan, runs[..|runs| - 1]), Resume(plan, first[..|first| - 1]);
    HistoryResumable(plan, runs[..|runs| - 1]);
    HistoryResumable(plan, first[..|first| - 1]);
    ResultRecords(plan, last, rest);
    ResultSources(plan, last, rest);
    ResultRecords(plan, first[|first| - 1], before);
    ResultSources(plan, first[|first| - 1], before);
    var a, b := LastRun(plan, first).result, LastRun(plan, runs).result;
    hide LastRun;
    CursorMonotone(a.progress.queries, b.progress.queries, a.progress.nextOrdinal, b.progress.nextOrdinal);
    hide CursorAt;
    PriorSourcesGrow(a.progress.queries, b.progress.queries);
    hide Grows;
  }

  // ----- Finished runs ------------------------------------------------------------------

  lemma AskFinished(plan: Plan, p: Providers, previous: seq<QueryProgress>, st: RunState, q: Query, r: QueryProgress)
    requires Find(previous, q.queryId) == Some(r) && r.Terminal()
    ensures var t := AskQuery(plan, p, previous, st, q);
            t.items == st.items + [r] && t.searches == st.searches && t.shared == st.shared
  {
    hide AfterSearch;
    hide AfterError;
  }

  lemma AskNext(plan: Plan, p: Providers, resume: Option<Progress>, n: nat)
    requires 0 < n <= |plan.queries|
    ensures AskFirst(plan, p, resume, n) == AskQuery(plan, p, Previous(resume), AskFirst(plan, p, resume, n - 1), plan.queries[n - 1])
  {
    hide AskQuery;
    hide Start;
  }

  lemma AskOneFinished(plan: Plan, p: Providers, resume: Option<Progress>, n: nat)
    requires plan.Valid() && Resumable(plan, resume) && resume.Some? && n < |plan.queries|
    requires resume.value.queries[n].Terminal()
    ensures var st, t := AskFirst(plan, p, resume, n), AskFirst(plan, p, resume, n + 1);
            t.items == st.items + [resume.value.queries[n]] && t.searches == st.searches && t.shared == st.shared
  {
    hide Good;
    hide Start;
    hide AskQuery;
    hide AskFirst;
    AskNext(plan, p, resume, n + 1);
    PreviousIs(plan, resume);
    hide Previous;
    hide Find;
    AskFinished(plan, p, Previous(resume), AskFirst(plan, p, resume, n), plan.queries[n], resume.value.queries[n]);
  }

  lemma {:induction false} NothingToAsk(plan: Plan, p: Providers, resume: Option<Progress>, n: nat)
    requires plan.Valid() && Resumable(plan, resume) && resume.Some? && n <= |plan.queries|
    requires forall k | 0 <= k < n :: resume.value.queries[k].Terminal()
    ensures var st := AskFirst(plan, p, resume, n);
            && st.items == resume.value.queries[..n] && st.searches == []
            && st.shared == Start(plan, resume).shared
  {
    hide Good;
    hide AskFirst;
    hide Start;
    if n == 0 {
      FirstQuery(plan, p, resume);
      StartIsEmpty(plan, resume);
    } else {
      NothingToAsk(plan, p, resume, n - 1);
      AskOneFinished(plan, p, resume, n - 1);
      assert resume.value.queries[..n] == resume.value.queries[..n - 1] + [resume.value.queries[n - 1]];
    }
  }

  lemma StartIsEmpty(plan: Plan, resume: Option<Progress>)
    ensures Start(plan, resume).items == [] && Start(plan, resume).searches == [] && Start(plan, resume).shared.calls == []
    ensures Start(plan, resume).shared.exhausted <==> StartingAttempts(resume) >= plan.scope.maxVerifications
  {
    hide StartingAttempts;
    hide Seeds;
  }

  lemma ResumingFinished(plan: Plan, p: Providers, resume: Option<Progress>)
    requires plan.Valid() && Resumable(plan, resume) && resume.Some?
    requires forall r | r in resume.value.queries :: r.Terminal()
    ensures var run := Execute(plan, p, resume);
            && run.result.progress.queries == resume.value.queries && run.searches == [] && run.calls == []
            && (run.result.budgetExhausted <==> StartingAttempts(resume) >= plan.scope.maxVerifications)
  {
    hide Good;
    hide StartingAttempts;
    NothingToAsk(plan, p, resume, |plan.queries|);
    StartIsEmpty(plan, resume);
    assert resume.value.queries[..|plan.queries|] == resume.value.queries;
    hide AskFirst;
    hide Start;
    hide Decide;
    hide FinalReasons;
  }

  /** Resuming a finished history asks and changes nothing, but it is not the identity: it reports
      the budget as exhausted exactly when the attempts it starts from reach the budget. */
  lemma FinishedIsKept(plan: Plan, runs: seq<Providers>)
    requires plan.Valid() && |runs| > 1
    requires forall r | r in Records(plan, runs[..|runs| - 1]) :: r.Terminal()
    ensures Records(plan, runs) == Records(plan, runs[..|runs| - 1])
    ensures LastRun(plan, runs).searches == [] && LastRun(plan, runs).calls == []
    ensures LastRun(plan, runs).result.budgetExhausted <==>
              StartingAttempts(Resume(plan, runs[..|runs| - 1])) >= plan.scope.maxVerifications
  {
    hide Execute;
    hide StartingAttempts;
    hide Good;
    var rest := runs[..|runs| - 1];
    HistoryResumable(plan, rest);
    ResumingFinished(plan, runs[|runs| - 1], Resume(plan, rest));
  }

  // ----- Validators ---------------------------------------------------------------------

  /** The validators of the progress record and of the result never reject what a run builds. */
  lemma ValidatorsPass(plan: Plan, runs: seq<Providers>)
    requires plan.Valid() && runs != []
    ensures var result := LastRun(plan, runs).result;
            && |result.progress.queries| <= result.progress.totalQueries
            && result.progress.nextOrdinal <= result.progress.totalQueries + 1
            && (result.absenceClaimAllowed ==> result.status.NotFoundInScope? && result.verifiedCount == 0)
  {
    var rest := runs[..|runs| - 1];
    HistoryResumable(plan, rest);
    ResultRecords(plan, runs[|runs| - 1], Resume(plan, rest));
    ResultAbsence(plan, runs[|runs| - 1], Resume(plan, rest));
    hide AskFirst;
    hide Good;
    hide Grows;
    hide FinalReasons;
  }
}
