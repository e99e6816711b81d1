/** Stuck queries: a record may count more candidates than it can ever verify. */
module CounterStuck {
  import opened Collections
  import opened CounterAuthority
  import opened CounterStep
  import opened CounterRun
  import opened CounterHistory

  /** Unfinished and held to be unresolved, although no recorded candidate is left unverified. */
  predicate Stuck(r: QueryProgress) {
    r.Retryable() && PriorUnresolved(Some(r)) && PriorUnresolvedIds(Some(r)) == {}
  }

  predicate Covered(r: QueryProgress) {
    Elems(r.candidateIds) <= Elems(r.verifiedIds)
  }

  lemma ErrorStaysStuck(r: QueryProgress, q: Query, result: ProviderResult)
    requires Stuck(r)
    ensures Stuck(ErrorRecord(Some(r), q, result))
  {
    assert UNRESOLVED in ErrorReasons(Some(r), result);
  }

  lemma SearchStaysStuck(plan: Plan, r: QueryProgress, q: Query, result: ProviderResult, w: Work)
    requires Stuck(r) && Covered(SearchRecord(plan, Some(r), q, result, w))
    ensures Stuck(SearchRecord(plan, Some(r), q, result, w))
  {
    var next := SearchRecord(plan, Some(r), q, result, w);
    var reasons := SearchReasons(Some(r), result, w);
    assert UnresolvedAfter(Some(r), w.verifiedIds);
    assert UNRESOLVED in reasons by {
      assert reasons[|w.reasons|] == UNRESOLVED;
    }
    DedupeKeeps(reasons);
    assert UNRESOLVED in next.reasons by {
      assert UNRESOLVED in Elems(Dedupe(reasons));
    }
    hide Dedupe;
    hide SearchReasons;
    hide UnresolvedAfter;
    DifferenceEmpty(Elems(next.candidateIds), Elems(next.verifiedIds));
  }

  /** One more search leaves a stuck query stuck, unless it records a candidate it does not verify. */
  lemma AskStaysStuck(plan: Plan, p: Providers, previous: seq<QueryProgress>, st: RunState, q: Query, r: QueryProgress)
    requires Find(previous, q.queryId) == Some(r) && Stuck(r)
    ensures var t := AskQuery(plan, p, previous, st, q);
            && |t.items| == |st.items| + 1 && t.items[..|st.items|] == st.items
            && (Covered(t.items[|st.items|]) ==> Stuck(t.items[|st.items|]))
  {
    hide Stuck;
    hide Covered;
    hide ErrorRecord;
    hide SearchRecord;
    hide SearchReasons;
    hide Worked;
    assert !r.Terminal() by {
      StuckIsOpen(r);
    }
    var outcome := p.search(|st.searches|, q.text, plan.scope.maxCandidates);
    var result := AsResult(outcome);
    ErrorStaysStuck(r, q, result);
    var w := Worked(plan, p, q, Entered(st.shared, outcome), result);
    if Covered(SearchRecord(plan, Some(r), q, result, w)) {
      SearchStaysStuck(plan, r, q, result, w);
    }
  }

  lemma StuckIsOpen(r: QueryProgress)
    requires Stuck(r)
    ensures !r.Terminal()
  {
  }

  /** The query itself, seen from the state before it. */
  lemma OwnTurn(plan: Plan, p: Providers, resume: Option<Progress>, i: nat)
    requires plan.Valid() && Resumable(plan, resume) && resume.Some? && i < |plan.queries|
    requires Stuck(resume.value.queries[i])
    ensures var before, after := AskFirst(plan, p, resume, i).items, AskFirst(plan, p, resume, i + 1).items;
            |after| == |before| + 1 && (Covered(after[|before|]) ==> Stuck(after[|before|]))
  {
    hide AskQuery;
    hide AskFirst;
    hide Good;
    hide Stuck;
    hide Covered;
    AskNext(plan, p, resume, i + 1);
    PreviousIs(plan, resume);
    hide Previous;
    hide Find;
    AskStaysStuck(plan, p, Previous(resume), AskFirst(plan, p, resume, i), plan.queries[i], resume.value.queries[i]);
  }

  lemma {:induction false} RunStaysStuck(plan: Plan, p: Providers, resume: Option<Progress>, n: nat, i: nat)
    requires plan.Valid() && Resumable(plan, resume) && resume.Some? && i < n <= |plan.queries|
    requires Stuck(resume.value.queries[i])
    ensures |AskFirst(plan, p, resume, n).items| == n
    ensures Covered(AskFirst(plan, p, resume, n).items[i]) ==> Stuck(AskFirst(plan, p, resume, n).items[i])
  {
    hide AskFirst;
    hide Good;
    hide Grows;
    hide Accounts;
    hide Advances;
    hide Traced;
    hide Stuck;
    hide Covered;
    RunRecords(plan, p, resume, n - 1);
    if i < n - 1 {
      RunStaysStuck(plan, p, resume, n - 1, i);
      var r := NextQuery(plan, p, resume, n - 1);
    } else {
      OwnTurn(plan, p, resume, i);
    }
  }

  /** After these runs the record of query q is stuck, or has verified all it records. */
  ghost predicate StuckAt(plan: Plan, runs: seq<Providers>, q: nat) {
    runs != [] && q < |Records(plan, runs)| && Stuck(Records(plan, runs)[q])
  }

  ghost predicate CoveredAt(plan: Plan, runs: seq<Providers>, q: nat) {
    runs != [] && q < |Records(plan, runs)| && Covered(Records(plan, runs)[q])
  }

  lemma RecordsAre(plan: Plan, runs: seq<Providers>)
    requires runs != []
    ensures Records(plan, runs) == AskFirst(plan, runs[|runs| - 1], Resume(plan, runs[..|runs| - 1]), |plan.queries|).items
    ensures Resume(plan, runs).Some? && Resume(plan, runs).value.queries == Records(plan, runs)
  {
    hide AskFirst;
    hide Decide;
    hide FinalReasons;
  }

  lemma NextStaysStuck(plan: Plan, runs: seq<Providers>, q: nat)
    requires plan.Valid() && |runs| > 1 && q < |plan.queries|
    requires StuckAt(plan, runs[..|runs| - 1], q) && CoveredAt(plan, runs, q)
    ensures StuckAt(plan, runs, q)
  {
    hide Execute;
    hide AskFirst;
    hide Stuck;
    hide Covered;
    hide Good;
    var rest := runs[..|runs| - 1];
    HistoryResumable(plan, rest);
    RecordsAre(plan, rest);
    RecordsAre(plan, runs);
    hide Records;
    hide Resume;
    RunStaysStuck(plan, runs[|runs| - 1], Resume(plan, rest), |plan.queries|, q);
  }

  /** Once stuck, a query stays unfinished over any number of further runs in which each candidate
      recorded for it is verified: however well the providers answer, it never ends. */
  lemma {:induction false} StuckForever(plan: Plan, runs: seq<Providers>, j: nat, q: nat)
    requires plan.Valid() && 1 <= j <= |runs| && q < |plan.queries|
    requires StuckAt(plan, runs[..j], q)
    requires forall k | j <= k <= |runs| :: CoveredAt(plan, runs[..k], q)
    ensures StuckAt(plan, runs, q)
  {
    hide StuckAt;
    hide CoveredAt;
    assert runs[..|runs|] == runs;
    if j < |runs| {
      var rest := runs[..|runs| - 1];
      assert rest[..j] == runs[..j];
      forall k | j <= k <= |rest|
        ensures CoveredAt(plan, rest[..k], q)
      {
        assert rest[..k] == runs[..k];
      }
      StuckForever(plan, rest, j, q);
      NextStaysStuck(plan, runs, q);
    }
  }

  // ----- A query that never finishes ----------------------------------------------------

  const PLAN := Plan("plan", Scope(2, 1), [Query("a", "first", 1)])

  const HIT := Candidate("c", None, None, None)

  const PROOF := Verification(ProviderFound, None, Some(Source("s", true, true, Some(0))), [Evidence("e", true)])

  function Answering(candidates: seq<Candidate>, complete: bool): Providers {
    Providers(
      (n: nat, text: string, limit: nat) => Answered(ProviderResult(ProviderFound, candidates, None, "", complete)),
      (n: nat, c: Candidate) => Consumes(true),
      (n: nat, c: Candidate) => Checked(PROOF),
      (s: string) => s)
  }

  /** The first run sees one candidate twice and is incomplete; all later ones see it once. */
  function Later(n: nat): seq<Providers> {
    if n == 0 then [Answering([HIT, HIT], false)] else Later(n - 1) + [Answering([HIT], true)]
  }

  /** One candidate, recorded and verified, but counted twice. */
  predicate CountedTwice(r: QueryProgress) {
    r.queryId == "a" && r.status.Partial? && r.candidateIds == r.verifiedIds == ["c"] && r.candidateCount >= 2
  }

  lemma CountedTwiceIsStuck(r: QueryProgress)
    requires CountedTwice(r)
    ensures Stuck(r) && Covered(r)
  {
  }

  lemma ExamineNew(queryId: string, complete: bool, cs: seq<Candidate>, s: Shared)
    requires s.seen == {} && s.attempts == 0
    ensures var w := Examine(PLAN, Answering(cs, complete), queryId, Fresh(s), HIT);
            w.candidateIds == w.verifiedIds == ["c"] && w.shared.seen == {"c"}
  {
    assert Evidence("e", true) in PROOF.evidence;
    assert CandidateKey(Answering(cs, complete).fold, HIT) == "c";
  }

  lemma ExamineSeen(queryId: string, complete: bool, cs: seq<Candidate>, w: Work)
    requires "c" in w.shared.seen
    ensures Examine(PLAN, Answering(cs, complete), queryId, w, HIT) == w
  {
    assert CandidateKey(Answering(cs, complete).fold, HIT) == "c";
    hide Listed;
    hide Settled;
    hide Called;
  }

  lemma FirstWork(q: Query, s: Shared, result: ProviderResult)
    requires s.seen == {} && s.attempts == 0 && result.candidates == [HIT, HIT]
    ensures var w := Worked(PLAN, Answering([HIT, HIT], false), q, s, result); w.candidateIds == w.verifiedIds == ["c"]
  {
    var p, cs := Answering([HIT, HIT], false), [HIT, HIT];
    hide Answering;
    hide Examine;
    assert Limited(PLAN, result) == cs;
    var w := Examine(PLAN, p, q.queryId, Fresh(s), HIT);
    assert ExamineFirst(PLAN, p, q.queryId, Fresh(s), cs, 0) == Fresh(s);
    assert ExamineFirst(PLAN, p, q.queryId, Fresh(s), cs, 1) == w;
    ExamineNew(q.queryId, false, cs, s);
    ExamineSeen(q.queryId, false, cs, w);
    assert ExamineFirst(PLAN, p, q.queryId, Fresh(s), cs, 2) == w;
  }

  lemma LaterWork(q: Query, s: Shared, result: ProviderResult)
    requires "c" in s.seen && result.candidates == [HIT]
    ensures Worked(PLAN, Answering([HIT], true), q, s, result) == Fresh(s)
  {
    var p, cs := Answering([HIT], true), [HIT];
    hide Answering;
    hide Examine;
    assert Limited(PLAN, result) == cs;
    assert ExamineFirst(PLAN, p, q.queryId, Fresh(s), cs, 0) == Fresh(s);
    ExamineSeen(q.queryId, true, cs, Fresh(s));
    assert ExamineFirst(PLAN, p, q.queryId, Fresh(s), cs, 1) == Fresh(s);
  }

  lemma DedupeSingle(x: string)
    ensures Dedupe([x]) == [x]
  {
    assert [x][..0] == [];
    assert Dedupe<string>([]) == [];
  }

  lemma FirstRecord(q: Query, result: ProviderResult, w: Work)
    requires q.queryId == "a" && result.candidates == [HIT, HIT] && !result.coverageComplete
    requires w.candidateIds == w.verifiedIds == ["c"]
    ensures CountedTwice(SearchRecord(PLAN, None, q, result, w))
  {
    assert [] + ["c"] == ["c"];
    DedupeSingle("c");
    hide Dedupe;
    hide SearchReasons;
  }

  lemma LaterRecord(r: QueryProgress, q: Query, result: ProviderResult, s: Shared)
    requires CountedTwice(r) && q.queryId == "a"
    ensures CountedTwice(SearchRecord(PLAN, Some(r), q, result, Fresh(s)))
  {
    CountedTwiceIsStuck(r);
    assert ["c"] + [] == ["c"];
    DedupeSingle("c");
    hide Dedupe;
    hide SearchReasons;
  }

  lemma FirstAsk(st: RunState, q: Query)
    requires q.queryId == "a" && st.shared.seen == {} && st.shared.attempts == 0 && st.items == []
    ensures var items := AskQuery(PLAN, Answering([HIT, HIT], false), [], st, q).items; |items| == 1 && CountedTwice(items[0])
  {
    hide SearchRecord;
    hide SearchReasons;
    hide Worked;
    hide CountedTwice;
    var result := ProviderResult(ProviderFound, [HIT, HIT], None, "", false);
    assert Answering([HIT, HIT], false).search(|st.searches|, q.text, 2) == Answered(result);
    var s := Entered(st.shared, Answered(result));
    FirstWork(q, s, result);
    FirstRecord(q, result, Worked(PLAN, Answering([HIT, HIT], false), q, s, result));
  }

  lemma LaterAsk(st: RunState, q: Query, r: QueryProgress)
    requires q.queryId == "a" && "c" in st.shared.seen && st.items == [] && CountedTwice(r)
    ensures var items := AskQuery(PLAN, Answering([HIT], true), [r], st, q).items; |items| == 1 && CountedTwice(items[0])
  {
    assert !r.Terminal() && Find([r], q.queryId) == Some(r);
    hide SearchRecord;
    hide SearchReasons;
    hide Worked;
    hide CountedTwice;
    var result := ProviderResult(ProviderFound, [HIT], None, "", true);
    assert Answering([HIT], true).search(|st.searches|, q.text, 2) == Answered(result);
    var s := Entered(st.shared, Answered(result));
    LaterWork(q, s, result);
    LaterRecord(r, q, result, s);
  }

  lemma StartsEmpty()
    ensures PLAN.Valid()
    ensures var st := Start(PLAN, None); st.shared.seen == {} && st.shared.attempts == 0 && st.items == []
    ensures Previous(None) == []
  {
  }

  lemma StartsSeeded(resume: Option<Progress>, r: QueryProgress)
    requires Previous(resume) == [r] && CountedTwice(r)
    ensures "c" in Start(PLAN, resume).shared.seen && Start(PLAN, resume).items == []
  {
    assert [r][..0] == [];
    assert Seeds([r]) == Seeds([]) + SeedOf(r);
    assert "c" in r.verifiedIds;
    hide StartingAttempts;
  }

  lemma LaterIs(n: nat)
    ensures Later(n) != []
    ensures n > 0 ==> Later(n)[..|Later(n)| - 1] == Later(n - 1) && Later(n)[|Later(n)| - 1] == Answering([HIT], true)
    ensures n == 0 ==> Later(n)[..|Later(n)| - 1] == [] && Later(n)[|Later(n)| - 1] == Answering([HIT, HIT], false)
  {
    hide Answering;
  }

  lemma OneQuery(p: Providers, resume: Option<Progress>)
    ensures AskFirst(PLAN, p, resume, 1) == AskQuery(PLAN, p, Previous(resume), Start(PLAN, resume), PLAN.queries[0])
  {
    hide AskQuery;
    hide Start;
    assert AskFirst(PLAN, p, resume, 0) == Start(PLAN, resume);
  }

  /** However often the search is resumed, with providers that answer completely and verify
      everything, the query stays partial: one candidate was counted twice at the start. */
  lemma {:induction false} RetryNeverFinishes(n: nat)
    ensures |Records(PLAN, Later(n))| == 1 && CountedTwice(Records(PLAN, Later(n))[0])
  {
    hide Execute;
    hide AskQuery;
    hide Answering;
    hide CountedTwice;
    hide Start;
    hide AskFirst;
    hide Later;
    LaterIs(n);
    StartsEmpty();
    RecordsAre(PLAN, Later(n));
    var rest := Later(n)[..|Later(n)| - 1];
    OneQuery(Later(n)[|Later(n)| - 1], Resume(PLAN, rest));
    if n == 0 {
      FirstAsk(Start(PLAN, None), PLAN.queries[0]);
    } else {
      RetryNeverFinishes(n - 1);
      LaterIs(n - 1);
      RecordsAre(PLAN, rest);
      HistoryResumable(PLAN, rest);
      PreviousIs(PLAN, Resume(PLAN, rest));
      var r := Records(PLAN, rest)[0];
      assert Previous(Resume(PLAN, rest)) == [r];
      StartsSeeded(Resume(PLAN, rest), r);
      LaterAsk(Start(PLAN, Resume(PLAN, rest)), PLAN.queries[0], r);
    }
  }
}
