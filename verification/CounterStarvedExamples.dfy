/** Chains of runs in which a query starves although every later search is answered in full and every
    verification would succeed. */
module CounterStarvedExamples {
  import opened Collections
  import opened CounterAuthority
  import opened CounterStep
  import opened CounterRun
  import opened CounterHistory
  import opened CounterStuck
  import opened CounterEnds
  import opened CounterStarved

  const FOUND := ProviderResult(ProviderFound, [HIT], None, "", true)

  /** The first text finds the candidate, any other times out, and so does the verification. */
  const TIMING := Providers(
    (n: nat, text: string, limit: nat) => if text == "first" then Answered(FOUND) else SearchTimedOut,
    (n: nat, c: Candidate) => Consumes(true),
    (n: nat, c: Candidate) => VerifyTimedOut,
    (s: string) => s)

  /** A new candidate whose verification times out is recorded, charged and left unverified. */
  lemma WorkTimesOut(plan: Plan, q: Query, s: Shared)
    requires 1 <= plan.scope.maxCandidates && s.seen == {} && s.attempts < plan.scope.maxVerifications
    ensures var w := Worked(plan, TIMING, q, s, FOUND);
            w.candidateIds == ["c"] && w.verifiedIds == w.verifiedKeys == [] && w.charged == 1 && w.failed
    ensures Worked(plan, TIMING, q, s, FOUND).shared.attempts == s.attempts + 1
  {
    assert CandidateKey(TIMING.fold, HIT) == "c";
    assert Limited(plan, FOUND) == [HIT];
    assert ExamineFirst(plan, TIMING, q.queryId, Fresh(s), [HIT], 0) == Fresh(s);
    assert ExamineFirst(plan, TIMING, q.queryId, Fresh(s), [HIT], 1) == Examine(plan, TIMING, q.queryId, Fresh(s), HIT);
    hide ExamineFirst;
  }

  lemma TimedOutRecord(plan: Plan, q: Query, w: Work)
    requires w.candidateIds == ["c"] && w.verifiedIds == w.verifiedKeys == [] && w.charged == 1 && w.failed
    ensures var r := SearchRecord(plan, None, q, FOUND, w);
            && !r.Terminal() && r.candidateIds == ["c"] && r.verifiedIds == r.verifiedKeys == [] && r.attemptCount == 1
  {
    assert [] + ["c"] == ["c"];
    DedupeSingle("c");
    DedupeEmpty<string>([] + []);
    assert Dedupe<string>([] + []) == [];
    hide Dedupe;
    hide SearchReasons;
  }

  lemma AskTimesOut(plan: Plan, st: RunState, q: Query)
    requires q.text == "first" && 1 <= plan.scope.maxCandidates
    requires st.shared.seen == {} && st.shared.attempts < plan.scope.maxVerifications && st.items == []
    ensures var t := AskQuery(plan, TIMING, [], st, q);
            && |t.items| == 1 && t.shared.attempts == st.shared.attempts + 1
            && !t.items[0].Terminal() && t.items[0].candidateIds == ["c"]
            && t.items[0].verifiedIds == t.items[0].verifiedKeys == [] && t.items[0].attemptCount == 1
  {
    hide Worked;
    hide SearchRecord;
    hide SearchReasons;
    assert TIMING.search(|st.searches|, q.text, plan.scope.maxCandidates) == Answered(FOUND);
    var s := Entered(st.shared, Answered(FOUND));
    WorkTimesOut(plan, q, s);
    TimedOutRecord(plan, q, Worked(plan, TIMING, q, s, FOUND));
  }

  lemma FirstOfRun(plan: Plan)
    requires plan.Valid() && plan.queries[0].text == "first"
    ensures |AskFirst(plan, TIMING, None, 1).items| == 1
    ensures AskFirst(plan, TIMING, None, 1).shared.attempts == 1
    ensures var r := AskFirst(plan, TIMING, None, 1).items[0];
            !r.Terminal() && r.candidateIds == ["c"] && r.verifiedIds == r.verifiedKeys == [] && r.attemptCount == 1
  {
    AskTimesOut(plan, Start(plan, None), plan.queries[0]);
    FirstQuery(plan, TIMING, None);
    AskNext(plan, TIMING, None, 1);
    hide AskFirst;
    hide AskQuery;
  }

  lemma OneRun(plan: Plan)
    ensures Records(plan, [TIMING]) == AskFirst(plan, TIMING, None, |plan.queries|).items
  {
    hide AskFirst;
    RecordsAre(plan, [TIMING]);
    assert [TIMING][..0] == [];
    hide Records;
  }

  /** After the first run the candidate waits, and one attempt has been made. */
  lemma AfterTiming(plan: Plan)
    requires plan.Valid() && plan.queries[0].text == "first"
    ensures Waiting(plan, [TIMING], 0, "c")
    ensures StartingAttempts(Resume(plan, [TIMING])) >= 1
  {
    hide AskFirst;
    hide Records;
    hide StartingAttempts;
    hide Resumable;
    FirstOfRun(plan);
    OneRun(plan);
    FreshIsResumable(plan);
    ItemsStay(plan, TIMING, None, |plan.queries|, 0);
    FirstCounts(plan);
  }

  lemma FreshIsResumable(plan: Plan)
    ensures Resumable(plan, None)
  {
  }

  lemma FirstCounts(plan: Plan)
    requires plan.Valid() && |Records(plan, [TIMING])| > 0 && Records(plan, [TIMING])[0].attemptCount >= 1
    ensures StartingAttempts(Resume(plan, [TIMING])) >= 1
  {
    HistoryResumable(plan, [TIMING]);
    PreviousIs(plan, Resume(plan, [TIMING]));
    RecordsAre(plan, [TIMING]);
    hide Records;
    hide Resume;
    SumHas(Records(plan, [TIMING]), 0);
    hide Good;
  }

  lemma {:induction false} SumHas(records: seq<QueryProgress>, i: nat)
    requires i < |records|
    ensures records[i].attemptCount <= SumAttempts(records)
  {
    if i < |records| - 1 {
      SumHas(records[..|records| - 1], i);
    }
  }

  // ----- The budget is spent ------------------------------------------------------------

  /** After one run that timed out, all later ones answer in full and verify everything. */
  function Spending(n: nat): seq<Providers> {
    [TIMING] + seq(n, _ => Answering([HIT], true))
  }

  /** With one query and a budget of one, the query never ends and is never stuck. */
  lemma SpentStarvesForever(n: nat)
    ensures |Records(CounterStuck.PLAN, Spending(n))| == 1
    ensures var r := Records(CounterStuck.PLAN, Spending(n))[0]; !r.Terminal() && !Stuck(r)
  {
    var plan, runs := CounterStuck.PLAN, Spending(n);
    assert plan.Valid();
    AfterTiming(plan);
    assert runs[..1] == [TIMING];
    hide Records;
    hide Resume;
    hide Waiting;
    hide StartingAttempts;
    forall k | 1 <= k < |runs|
      ensures AlwaysCharges(runs[k])
    {
      assert runs[k] == Answering([HIT], true);
    }
    SpentForever(plan, runs, 1, 0, "c");
    TerminalMeansVerified(plan, runs);
  }

  // ----- The key is taken ---------------------------------------------------------------

  const PAIR := Plan("plan", Scope(2, 5), [Query("a", "first", 1), Query("b", "second", 2)])

  /** The other way round: the second text finds the candidate, and it verifies. */
  const SWITCHED := Providers(
    (n: nat, text: string, limit: nat) => if text == "second" then Answered(FOUND) else SearchTimedOut,
    (n: nat, c: Candidate) => Consumes(true),
    (n: nat, c: Candidate) => Checked(PROOF),
    (s: string) => s)

  /** Every search finds the candidate, it verifies, and that is free. */
  const FREE := Providers(
    (n: nat, text: string, limit: nat) => Answered(FOUND),
    (n: nat, c: Candidate) => Consumes(false),
    (n: nat, c: Candidate) => Checked(PROOF),
    (s: string) => s)

  function Taking(n: nat): seq<Providers> {
    [TIMING, SWITCHED] + seq(n, _ => FREE)
  }

  lemma SecondTimesOut(st: RunState)
    ensures AskQuery(PAIR, TIMING, [], st, PAIR.queries[1]).items
            == st.items + [ErrorRecord(None, PAIR.queries[1], AsResult(SearchTimedOut))]
    ensures AskQuery(PAIR, TIMING, [], st, PAIR.queries[1]).shared.attempts == st.shared.attempts
  {
    assert TIMING.search(|st.searches|, PAIR.queries[1].text, 2) == SearchTimedOut;
    hide ErrorRecord;
    hide ErrorReasons;
  }

  lemma NothingRecorded(r: QueryProgress)
    requires r == ErrorRecord(None, PAIR.queries[1], AsResult(SearchTimedOut))
    ensures r.Retryable() && PriorUnresolvedIds(Some(r)) == {} && !Stuck(r) && r.attemptCount == 0
    ensures r.verifiedIds == r.verifiedKeys == []
  {
    assert ErrorReasons(None, AsResult(SearchTimedOut)) == ["COUNTER_AUTHORITY_PROVIDER_TIMEOUT"];
    assert |UNRESOLVED| != |"COUNTER_AUTHORITY_PROVIDER_TIMEOUT"|;
  }

  /** In the first run the first query leaves its candidate unverified and the second one fails. */
  lemma PairItems()
    ensures PAIR.Valid()
    ensures |Records(PAIR, [TIMING])| == 2
    ensures var r := Records(PAIR, [TIMING])[0];
            !r.Terminal() && r.candidateIds == ["c"] && r.verifiedIds == r.verifiedKeys == [] && r.attemptCount == 1
    ensures Records(PAIR, [TIMING])[1] == ErrorRecord(None, PAIR.queries[1], AsResult(SearchTimedOut))
    ensures LastRun(PAIR, [TIMING]).result.attempts == 1
  {
    hide AskQuery;
    hide AskFirst;
    hide ErrorRecord;
    hide Records;
    hide LastRun;
    hide Start;
    assert PAIR.Valid() && Previous(None) == [] && |PAIR.queries| == 2;
    FirstOfRun(PAIR);
    OneRun(PAIR);
    OneRunAttempts(PAIR);
    AskNext(PAIR, TIMING, None, 2);
    SecondTimesOut(AskFirst(PAIR, TIMING, None, 1));
  }

  lemma OneRunAttempts(plan: Plan)
    ensures LastRun(plan, [TIMING]).result.attempts == AskFirst(plan, TIMING, None, |plan.queries|).shared.attempts
  {
    assert [TIMING][..0] == [];
    hide AskFirst;
    hide Decide;
    hide FinalReasons;
  }

  lemma PairAfterTiming()
    ensures PAIR.Valid()
    ensures Resume(PAIR, [TIMING]).Some? && Resume(PAIR, [TIMING]).value.queries == Records(PAIR, [TIMING])
    ensures Previous(Resume(PAIR, [TIMING])) == Records(PAIR, [TIMING])
    ensures Seeds(Records(PAIR, [TIMING])) == {} && StartingAttempts(Resume(PAIR, [TIMING])) == 1
  {
    hide LastRun;
    hide Records;
    hide Resume;
    hide Resumable;
    hide Previous;
    hide Seeds;
    hide SumAttempts;
    hide LegacyAttempts;
    hide StartingAttempts;
    hide ErrorRecord;
    PairItems();
    RecordsAre(PAIR, [TIMING]);
    PreviousRecords(PAIR, [TIMING]);
    NothingRecorded(Records(PAIR, [TIMING])[1]);
    AttemptsCarried(PAIR, [TIMING]);
    TwoRecords(Records(PAIR, [TIMING])[0], Records(PAIR, [TIMING])[1]);
    assert Records(PAIR, [TIMING]) == [Records(PAIR, [TIMING])[0], Records(PAIR, [TIMING])[1]];
    StartsAt(Resume(PAIR, [TIMING]), Records(PAIR, [TIMING]));
  }

  lemma PreviousRecords(plan: Plan, runs: seq<Providers>)
    requires plan.Valid() && runs != []
    ensures Previous(Resume(plan, runs)) == Records(plan, runs)
  {
    hide Records;
    hide Resume;
    hide Previous;
    HistoryResumable(plan, runs);
    PreviousIs(plan, Resume(plan, runs));
    RecordsAre(plan, runs);
    hide Good;
  }

  lemma StartsAt(resume: Option<Progress>, records: seq<QueryProgress>)
    requires resume.Some? && Previous(resume) == records && resume.value.attempts == SumAttempts(records) && LegacyAttempts(records) == 0
    ensures StartingAttempts(resume) == SumAttempts(records)
  {
    hide Previous;
  }

  lemma AttemptsCarried(plan: Plan, runs: seq<Providers>)
    requires runs != []
    ensures Resume(plan, runs).value.attempts == LastRun(plan, runs).result.attempts
  {
    hide AskFirst;
    hide Decide;
    hide FinalReasons;
  }

  lemma TwoRecords(a: QueryProgress, b: QueryProgress)
    requires !a.Terminal() && a.verifiedIds == a.verifiedKeys == []
    requires !b.Terminal() && b.verifiedIds == b.verifiedKeys == []
    ensures Seeds([a, b]) == {}
    ensures SumAttempts([a, b]) == a.attemptCount + b.attemptCount && LegacyAttempts([a, b]) == 0
  {
    assert [a, b][..1] == [a] && [a][..0] == [];
    assert Seeds([a, b]) == Seeds([a]) + SeedOf(b);
    assert SumAttempts([a, b]) == SumAttempts([a]) + b.attemptCount;
    assert LegacyAttempts([a, b]) == LegacyAttempts([a]);
  }

  /** A query with nothing unresolved whose search brings these candidates ends with them. */
  lemma EndsWith(plan: Plan, runs: seq<Providers>, q: nat, cs: seq<Candidate>, c: Candidate)
    requires plan.Valid() && runs != [] && q < |plan.queries| && c in cs
    requires var prior := PriorRecord(plan, runs, q);
             prior.Some? && prior.value.Retryable() && PriorUnresolvedIds(prior) == {} && !StuckBefore(prior)
    requires var p, s, result := runs[|runs| - 1], LastState(plan, runs, q).shared, LastAnswer(plan, runs, q);
             Complete(result) && Due(plan, p, s, result) == cs && Affords(plan, p, s, cs) && AllVerify(p, s, cs)
    ensures |Records(plan, runs)| == |plan.queries|
    ensures Records(plan, runs)[q].Terminal() && c.candidateId in Records(plan, runs)[q].candidateIds
  {
    hide Records;
    hide PriorRecord;
    hide StuckBefore;
    hide LastState;
    hide LastAnswer;
    hide Complete;
    hide Due;
    hide Affords;
    hide AllVerify;
    QueryEnds(plan, runs, q);
    TerminalMeansVerified(plan, runs);
    var r := Records(plan, runs)[q];
    assert r in Records(plan, runs);
    var i :| 0 <= i < |cs| && cs[i] == c;
    assert Ids(cs)[i] == c.candidateId;
    assert c.candidateId in Elems(Ids(cs));
    assert c.candidateId in Elems(r.candidateIds);
  }

  /** In the second run the first query fails, and the second one verifies the candidate and ends. */
  lemma SwitchedTakes()
    ensures |Records(PAIR, [TIMING, SWITCHED])| == 2
    ensures Records(PAIR, [TIMING, SWITCHED])[1].Terminal() && "c" in Records(PAIR, [TIMING, SWITCHED])[1].candidateIds
  {
    hide ErrorRecord;
    hide Records;
    hide LastState;
    hide LastAnswer;
    hide Stuck;
    hide PriorUnresolvedIds;
    hide Due;
    hide Affords;
    hide AllVerify;
    var runs := [TIMING, SWITCHED];
    assert runs[..|runs| - 1] == [TIMING];
    PairItems();
    NothingRecorded(Records(PAIR, [TIMING])[1]);
    assert PriorRecord(PAIR, runs, 1) == Some(Records(PAIR, [TIMING])[1]);
    hide PriorRecord;
    SecondState();
    HitIsDue(LastState(PAIR, runs, 1).shared);
    EndsWith(PAIR, runs, 1, [HIT], HIT);
  }

  lemma SecondState()
    ensures var runs := [TIMING, SWITCHED];
            && LastState(PAIR, runs, 1).shared.seen == {} && LastState(PAIR, runs, 1).shared.attempts == 1
            && LastAnswer(PAIR, runs, 1) == FOUND
  {
    var runs, resume := [TIMING, SWITCHED], Resume(PAIR, [TIMING]);
    assert runs[..1] == [TIMING];
    PairItems();
    PairAfterTiming();
    hide Resume;
    hide Records;
    hide ErrorRecord;
    hide ErrorReasons;
    FirstQuery(PAIR, SWITCHED, resume);
    AskNext(PAIR, SWITCHED, resume, 1);
    hide AskFirst;
    var st := Start(PAIR, resume);
    assert SWITCHED.search(|st.searches|, "first", 2) == SearchTimedOut;
    hide StartingAttempts;
    hide Seeds;
    hide Previous;
    hide Find;
    hide Worked;
  }

  lemma HitIsDue(s: Shared)
    requires s.seen == {} && s.attempts == 1
    ensures Due(PAIR, SWITCHED, s, FOUND) == [HIT] && Affords(PAIR, SWITCHED, s, [HIT]) && AllVerify(SWITCHED, s, [HIT])
  {
    assert CandidateKey(SWITCHED.fold, HIT) == "c";
    assert Limited(PAIR, FOUND) == [HIT];
    assert [HIT][..0] == [];
    assert New(SWITCHED.fold, s.seen, []) == [] && Cost(SWITCHED, s.costCalls, []) == 0;
    assert Evidence("e", true) in PROOF.evidence;
  }

  lemma StillWaiting()
    ensures Waiting(PAIR, [TIMING, SWITCHED], 0, "c")
  {
    hide ErrorRecord;
    hide Records;
    hide Resume;
    hide Waiting;
    var two := [TIMING, SWITCHED];
    assert two[..1] == [TIMING] && two[..2] == two;
    PairItems();
    AfterTiming(PAIR);
    SwitchedStarves(Resume(PAIR, two[..1]));
    hide Starves;
    StarvedForever(PAIR, two, 1, 0, "c");
  }

  /** The candidate has been taken by the other query: the first one never ends and is never stuck,
      although verifying its candidate would be free and succeed. */
  lemma TakenStarvesForever(n: nat)
    ensures |Records(PAIR, Taking(n))| == 2
    ensures var r := Records(PAIR, Taking(n))[0]; !r.Terminal() && !Stuck(r)
  {
    hide Records;
    hide Waiting;
    hide KnownAs;
    hide Stuck;
    var runs := Taking(n);
    assert runs[..2] == [TIMING, SWITCHED];
    assert PAIR.Valid();
    StillWaiting();
    SwitchedTakes();
    FreeIsKnown();
    forall k | 2 <= k < |runs|
      ensures KnownAs(PAIR, runs[k], 0, "c", "c")
    {
      assert runs[k] == FREE;
    }
    SeededForever(PAIR, runs, 2, 0, "c", 1, "c");
    RecordsGrow(PAIR, runs, 2);
  }

  lemma SwitchedStarves(resume: Option<Progress>)
    ensures Starves(PAIR, SWITCHED, resume, 0, "c")
  {
    assert forall n: nat :: SWITCHED.search(n, "first", 2) == SearchTimedOut;
    hide Reachable;
  }

  lemma FreeIsKnown()
    ensures KnownAs(PAIR, FREE, 0, "c", "c")
  {
    assert CandidateKey(FREE.fold, HIT) == "c";
  }
}
