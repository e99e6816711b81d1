/** Small histories in which the reported attempts exceed the verification budget, and in which
    resuming a finished search reports the budget as exhausted. */
module CounterExamples {
  import opened Collections
  import opened CounterAuthority
  import opened CounterBudget
  import opened CounterHistory
  import opened CounterRun
  import opened CounterStuck

  const PLAN := Plan("plan", Scope(1, 1), [Query("a", "first", 1), Query("b", "second", 2)])

  /** Every search finds the same candidate, and the candidate verifies. */
  const AGREEING := Answering([HIT], true)

  lemma ExamineFresh(s: Shared)
    requires s.seen == {} && s.attempts == 0
    ensures var w := Examine(PLAN, AGREEING, "a", Fresh(s), HIT);
            && w.candidateIds == w.verifiedIds == ["c"] && !w.failed && w.charged == 1
            && w.shared.seen == {"c"} && w.shared.attempts == 1 && w.shared.exhausted == s.exhausted
  {
    assert Evidence("e", true) in PROOF.evidence;
    assert CandidateKey(AGREEING.fold, HIT) == "c";
  }

  lemma WorkedOnHit(q: Query, s: Shared)
    ensures Worked(PLAN, AGREEING, q, s, ProviderResult(ProviderFound, [HIT], None, "", true))
            == Examine(PLAN, AGREEING, q.queryId, Fresh(s), HIT)
  {
    hide Examine;
    var result := ProviderResult(ProviderFound, [HIT], None, "", true);
    assert Limited(PLAN, result) == [HIT];
    assert ExamineFirst(PLAN, AGREEING, q.queryId, Fresh(s), [HIT], 0) == Fresh(s);
    assert ExamineFirst(PLAN, AGREEING, q.queryId, Fresh(s), [HIT], 1) == Examine(PLAN, AGREEING, q.queryId, Fresh(s), HIT);
  }

  /** A fresh query whose only candidate is verified, or skipped as a duplicate, is found. */
  lemma FoundRecord(q: Query, w: Work)
    requires !w.failed
    ensures var r := SearchRecord(PLAN, None, q, ProviderResult(ProviderFound, [HIT], None, "", true), w);
            r.status.Found? && r.candidateCount >= 1 && r.queryId == q.queryId
  {
    hide Dedupe;
    hide SearchReasons;
  }

  lemma AskFresh(st: RunState, q: Query)
    ensures var result := ProviderResult(ProviderFound, [HIT], None, "", true);
            AskQuery(PLAN, AGREEING, [], st, q)
            == AfterWork(PLAN, st, None, q, Answered(result), Examine(PLAN, AGREEING, q.queryId, Fresh(st.shared), HIT))
  {
    hide Examine;
    hide SearchRecord;
    hide Worked;
    var result := ProviderResult(ProviderFound, [HIT], None, "", true);
    assert AGREEING.search(|st.searches|, q.text, 1) == Answered(result);
    assert Entered(st.shared, Answered(result)) == st.shared;
    WorkedOnHit(q, st.shared);
  }

  lemma FirstRun()
    ensures var items := AskFirst(PLAN, AGREEING, None, 2).items;
            |items| == 2 && forall i | 0 <= i < 2 :: items[i].status.Found? && items[i].candidateCount >= 1
    ensures !AskFirst(PLAN, AGREEING, None, 2).shared.exhausted
  {
    hide Examine;
    hide AfterWork;
    hide AskQuery;
    var a, b := PLAN.queries[0], PLAN.queries[1];
    var result := ProviderResult(ProviderFound, [HIT], None, "", true);
    var st0 := Start(PLAN, None);
    var w1 := Examine(PLAN, AGREEING, "a", Fresh(st0.shared), HIT);
    var st1 := AfterWork(PLAN, st0, None, a, Answered(result), w1);
    var w2 := Examine(PLAN, AGREEING, "b", Fresh(st1.shared), HIT);
    var st2 := AfterWork(PLAN, st1, None, b, Answered(result), w2);
    AskFresh(st0, a);
    AskFresh(st1, b);
    assert AskFirst(PLAN, AGREEING, None, 0) == st0;
    assert AskFirst(PLAN, AGREEING, None, 1) == st1;
    assert AskFirst(PLAN, AGREEING, None, 2) == st2;
    hide AskFirst;
    ExamineFresh(st0.shared);
    RecordedFound(st0, a, w1);
    SkipSeen(b, st1.shared);
    RecordedFound(st1, b, w2);
  }

  lemma RecordedFound(st: RunState, q: Query, w: Work)
    requires !w.failed
    ensures var t := AfterWork(PLAN, st, None, q, Answered(ProviderResult(ProviderFound, [HIT], None, "", true)), w);
            && |t.items| == |st.items| + 1 && t.items[..|st.items|] == st.items
            && t.items[|st.items|].status.Found? && t.items[|st.items|].candidateCount >= 1
            && t.shared.seen == w.shared.seen && t.shared.exhausted == w.shared.exhausted
  {
    FoundRecord(q, w);
    hide SearchRecord;
    hide SearchReasons;
  }

  lemma SkipSeen(q: Query, s: Shared)
    requires "c" in s.seen
    ensures Examine(PLAN, AGREEING, q.queryId, Fresh(s), HIT) == Fresh(s)
  {
    assert CandidateKey(AGREEING.fold, HIT) == "c";
    hide Listed;
    hide Settled;
    hide Called;
  }

  /** Two found queries count the same candidate twice, so resuming them reports two attempts
      against a budget of one, although one call was ever charged. */
  lemma ReportedAttemptsExceedBudget()
    ensures PLAN.Valid()
    ensures LastRun(PLAN, [AGREEING, AGREEING]).result.attempts > PLAN.scope.maxVerifications
    ensures TotalCharged(PLAN, [AGREEING, AGREEING]) <= PLAN.scope.maxVerifications
  {
    hide Execute;
    hide AskFirst;
    assert PLAN.Valid();
    var runs := [AGREEING, AGREEING];
    BudgetHolds(PLAN, runs);
    ReportedAttemptsWithinBudget(PLAN, runs);
    assert runs[..1] == [AGREEING];
    FirstRun();
    FirstRecords();
    var items := Records(PLAN, [AGREEING]);
    assert LegacyAttempts(items[..1]) >= 1 by {
      assert items[..1][..0] == [];
    }
    assert items[..2] == items;
  }

  lemma FirstRecords()
    ensures Records(PLAN, [AGREEING]) == AskFirst(PLAN, AGREEING, None, 2).items
  {
    hide AskFirst;
    hide Decide;
    hide FinalReasons;
    var runs := [AGREEING];
    assert runs[..|runs| - 1] == [];
    assert Resume(PLAN, runs[..|runs| - 1]) == None;
    assert LastRun(PLAN, runs) == Execute(PLAN, AGREEING, None);
    assert |PLAN.queries| == 2;
  }

  /** The first run finishes within its budget; resuming it changes no record but reports the
      budget as exhausted. */
  lemma ResumingReportsExhaustion()
    ensures (forall r | r in Records(PLAN, [AGREEING]) :: r.Terminal()) && !LastRun(PLAN, [AGREEING]).result.budgetExhausted
    ensures Records(PLAN, [AGREEING, AGREEING]) == Records(PLAN, [AGREEING])
    ensures LastRun(PLAN, [AGREEING, AGREEING]).result.budgetExhausted
  {
    hide AskFirst;
    hide Decide;
    hide FinalReasons;
    hide StartingAttempts;
    var runs := [AGREEING, AGREEING];
    assert runs[..|runs| - 1] == [AGREEING];
    FirstRun();
    FirstRecords();
    FirstBudget();
    hide Execute;
    FinishedIsKept(PLAN, runs);
    StartsSpent();
  }

  lemma FirstBudget()
    ensures LastRun(PLAN, [AGREEING]).result.budgetExhausted == AskFirst(PLAN, AGREEING, None, 2).shared.exhausted
  {
    hide AskFirst;
    hide Decide;
    hide FinalReasons;
    var runs := [AGREEING];
    assert runs[..|runs| - 1] == [];
    assert Resume(PLAN, runs[..|runs| - 1]) == None;
  }

  lemma StartsSpent()
    ensures StartingAttempts(Resume(PLAN, [AGREEING])) >= PLAN.scope.maxVerifications
  {
    hide Execute;
    hide AskFirst;
    FirstRun();
    FirstRecords();
    var items := Records(PLAN, [AGREEING]);
    HistoryResumable(PLAN, [AGREEING]);
    PreviousIs(PLAN, Resume(PLAN, [AGREEING]));
    assert LegacyAttempts(items[..1]) >= 1 by {
      assert items[..1][..0] == [];
    }
    assert items[..2] == items;
    hide SumAttempts;
  }
}
