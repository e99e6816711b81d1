/** The verification budget over whole histories, and the candidates that are never verified twice. */
module CounterBudget {
  import opened Collections
  import opened CounterAuthority
  import opened CounterStep
  import opened CounterRun
  import opened CounterHistory

  // ----- The verification budget --------------------------------------------------------

  /** Over any history the budget bounds the verification calls that consume it, and each of
      them is accounted for on exactly one query's record. */
  lemma {:induction false} BudgetHolds(plan: Plan, runs: seq<Providers>)
    requires plan.Valid() && runs != []
    ensures TotalCharged(plan, runs) <= plan.scope.maxVerifications
    ensures SumAttempts(Records(plan, runs)) == TotalCharged(plan, runs) <= LastRun(plan, runs).result.attempts
  {
    hide Execute;
    var rest := runs[..|runs| - 1];
    HistoryResumable(plan, rest);
    ResultAttempts(plan, runs[|runs| - 1], Resume(plan, rest));
    if rest != [] {
      BudgetHolds(plan, rest);
      HistoryResumable(plan, rest[..|rest| - 1]);
      PreviousIs(plan, Resume(plan, rest));
    }
  }

  lemma {:induction false} LegacyGrows(a: seq<QueryProgress>, b: seq<QueryProgress>)
    requires |a| == |b| && forall i | 0 <= i < |a| :: Grows(a[i], b[i])
    ensures LegacyAttempts(a) <= LegacyAttempts(b)
  {
    if a != [] {
      LegacyGrows(a[..|a| - 1], b[..|b| - 1]);
      assert Grows(a[|a| - 1], b[|b| - 1]);
    }
  }

  lemma LegacyMonotone(plan: Plan, runs: seq<Providers>)
    requires plan.Valid() && |runs| > 1
    ensures LegacyAttempts(Records(plan, runs[..|runs| - 1])) <= LegacyAttempts(Records(plan, runs))
  {
    RecordsGrow(plan, runs, |runs| - 1);
    hide LastRun;
    LegacyGrows(Records(plan, runs[..|runs| - 1]), Records(plan, runs));
  }

  /** The attempts a run reports can exceed the budget, unlike the calls it charges: that
      happens exactly when the queries already recorded as found count more candidates than
      the budget allows. */
  lemma {:induction false} ReportedAttemptsWithinBudget(plan: Plan, runs: seq<Providers>)
    requires plan.Valid() && runs != []
    ensures LastRun(plan, runs).result.attempts <= plan.scope.maxVerifications <==>
              (|runs| == 1 || LegacyAttempts(Records(plan, runs[..|runs| - 1])) <= plan.scope.maxVerifications)
  {
    hide LastRun;
    hide StartingAttempts;
    var rest := runs[..|runs| - 1];
    LastAttempts(plan, runs);
    if rest != [] {
      ReportedAttemptsWithinBudget(plan, rest);
      BudgetHolds(plan, rest);
      if |rest| > 1 {
        LegacyMonotone(plan, rest);
      }
    }
  }

  // ----- No candidate twice -------------------------------------------------------------

  /** No run passes the same candidate key to verification twice. */
  lemma NoKeyTwiceInARun(plan: Plan, runs: seq<Providers>, i: nat, j: nat)
    requires plan.Valid() && runs != []
    requires i < j < |LastRun(plan, runs).calls|
    ensures LastRun(plan, runs).calls[i].key != LastRun(plan, runs).calls[j].key
  {
    var rest := runs[..|runs| - 1];
    HistoryResumable(plan, rest);
    ResultKeys(plan, runs[|runs| - 1], Resume(plan, rest));
    hide Execute;
  }

  lemma OpenQuerySeeds(plan: Plan, resume: Option<Progress>, before: QueryProgress, q: nat, key: string)
    requires plan.Valid() && Resumable(plan, resume) && resume.Some? && q < |plan.queries|
    requires Grows(before, resume.value.queries[q]) && !resume.value.queries[q].Terminal()
    requires key in before.verifiedKeys
    ensures key in Seeds(Previous(resume))
  {
    PreviousIs(plan, resume);
    hide Good;
    assert key in Elems(before.verifiedKeys);
    SeedsHave(resume.value.queries, q);
    assert key in SeedOf(resume.value.queries[q]);
  }

  /** A candidate verified for a query that is still unfinished is never verified again. */
  lemma VerifiedIsNotRepeated(plan: Plan, runs: seq<Providers>, j: nat, q: nat, key: string, c: nat)
    requires plan.Valid() && 1 <= j < |runs| && q < |plan.queries|
    requires q < |Records(plan, runs[..j])| && q < |Records(plan, runs[..|runs| - 1])|
    requires key in Records(plan, runs[..j])[q].verifiedKeys
    requires !Records(plan, runs[..|runs| - 1])[q].Terminal()
    requires c < |LastRun(plan, runs).calls|
    ensures LastRun(plan, runs).calls[c].key != key
  {
    hide Execute;
    hide Good;
    hide Grows;
    var rest := runs[..|runs| - 1];
    HistoryResumable(plan, rest);
    ResultKeys(plan, runs[|runs| - 1], Resume(plan, rest));
    RecordsGrow(plan, rest, j);
    PrefixPrefix(runs, j, |runs| - 1);
    OpenQuerySeeds(plan, Resume(plan, rest), Records(plan, runs[..j])[q], q, key);
  }
}
