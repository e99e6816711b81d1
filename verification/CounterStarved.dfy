/** Queries that starve: what a run cannot verify stays unverified, whether the budget is spent or the
    key of the candidate has already been taken, and keeps its query unfinished. */
module CounterStarved {
  import opened Collections
  import opened CounterAuthority
  import opened CounterStep
  import opened CounterRun
  import opened CounterHistory
  import opened CounterStuck
  import opened CounterEnds

  // ----- What it takes to be verified ---------------------------------------------------

  /** From shared state s the candidate may still be verified: its key is not seen, and the budget
      is not spent unless its verification can be free. */
  ghost predicate Reachable(plan: Plan, p: Providers, s: Shared, c: Candidate) {
    && CandidateKey(p.fold, c) !in s.seen
    && (s.attempts < plan.scope.maxVerifications || exists m: nat :: !Charges(p.cost(m, c)))
  }

  lemma ExamineVerifies(plan: Plan, p: Providers, queryId: string, w: Work, c: Candidate, id: string)
    requires id in Examine(plan, p, queryId, w, c).verifiedIds && id !in w.verifiedIds
    ensures c.candidateId == id && Reachable(plan, p, w.shared, c)
  {
    hide CandidateKey;
    var cost := p.cost(w.shared.costCalls, c);
    assert !Charges(cost) ==> exists m: nat :: !Charges(p.cost(m, c));
  }

  lemma {:induction false} VerifiedFrom(plan: Plan, p: Providers, queryId: string, s: Shared, cs: seq<Candidate>, n: nat, id: string)
    requires n <= |cs| && id in ExamineFirst(plan, p, queryId, Fresh(s), cs, n).verifiedIds
    ensures exists c :: c in cs && c.candidateId == id && Reachable(plan, p, s, c)
  {
    hide Examine;
    if n > 0 {
      var w := ExamineFirst(plan, p, queryId, Fresh(s), cs, n - 1);
      if id in w.verifiedIds {
        VerifiedFrom(plan, p, queryId, s, cs, n - 1, id);
      } else {
        ExamineFirstKeeps(plan, p, queryId, s, cs, n - 1);
        ExamineVerifies(plan, p, queryId, w, cs[n - 1], id);
        ReachableBefore(plan, p, s, w.shared, cs[n - 1]);
      }
    }
  }

  /** What can be verified later could be verified before. */
  lemma ReachableBefore(plan: Plan, p: Providers, s: Shared, t: Shared, c: Candidate)
    requires s.seen <= t.seen && s.attempts <= t.attempts && Reachable(plan, p, t, c)
    ensures Reachable(plan, p, s, c)
  {
    hide CandidateKey;
  }

  /** The candidates a provider returns for a text at its n-th search of a run. */
  function Offers(plan: Plan, p: Providers, n: nat, text: string): seq<Candidate> {
    AsResult(p.search(n, text, plan.scope.maxCandidates)).candidates
  }

  lemma AskVerifies(plan: Plan, p: Providers, previous: seq<QueryProgress>, st: RunState, q: Query, id: string)
    requires var t := AskQuery(plan, p, previous, st, q);
             |t.items| == |st.items| + 1 && id in t.items[|st.items|].verifiedIds
    requires id !in Base(Find(previous, q.queryId), q.queryId).verifiedIds
    ensures exists n, c :: c in Offers(plan, p, n, q.text) && c.candidateId == id && Reachable(plan, p, st.shared, c)
  {
    hide Worked;
    hide SearchStatus;
    hide SearchReasons;
    hide ErrorReasons;
    hide Dedupe;
    var prior := Find(previous, q.queryId);
    hide Find;
    var outcome := p.search(|st.searches|, q.text, plan.scope.maxCandidates);
    var result := AsResult(outcome);
    if !(prior.Some? && prior.value.Terminal()) && !result.status.ProviderError? {
      var w := Worked(plan, p, q, Entered(st.shared, outcome), result);
      NewlyVerified(Base(prior, q.queryId).verifiedIds, w.verifiedIds, id);
      WorkVerifies(plan, p, q, Entered(st.shared, outcome), result, id);
      hide Reachable;
      var c :| c in result.candidates && c.candidateId == id && Reachable(plan, p, Entered(st.shared, outcome), c);
      ReachableBefore(plan, p, st.shared, Entered(st.shared, outcome), c);
      assert c in Offers(plan, p, |st.searches|, q.text);
    }
  }

  lemma NewlyVerified(before: seq<string>, added: seq<string>, id: string)
    requires id in Dedupe(before + added) && id !in before
    ensures id in added
  {
    DedupeKeeps(before + added);
    assert id in Elems(Dedupe(before + added));
    hide Dedupe;
  }

  lemma WorkVerifies(plan: Plan, p: Providers, q: Query, s: Shared, result: ProviderResult, id: string)
    requires id in Worked(plan, p, q, s, result).verifiedIds
    ensures exists c :: c in result.candidates && c.candidateId == id && Reachable(plan, p, s, c)
  {
    var cs := Limited(plan, result);
    hide Reachable;
    VerifiedFrom(plan, p, q.queryId, s, cs, |cs|, id);
    var c :| c in cs && c.candidateId == id && Reachable(plan, p, s, c);
    assert c in result.candidates;
  }

  // ----- Runs ---------------------------------------------------------------------------

  /** No candidate with this id that the run's searches for query q may bring can be verified. */
  ghost predicate Starves(plan: Plan, p: Providers, resume: Option<Progress>, q: nat, id: string)
    requires q < |plan.queries|
  {
    forall n, c | c in Offers(plan, p, n, plan.queries[q].text) && c.candidateId == id ::
      !Reachable(plan, p, Start(plan, resume).shared, c)
  }

  lemma RunStarves(plan: Plan, p: Providers, resume: Option<Progress>, q: nat, id: string)
    requires plan.Valid() && Resumable(plan, resume) && q < |plan.queries|
    requires Starves(plan, p, resume, q, id) && id !in Before(plan, resume, q).verifiedIds
    ensures |AskFirst(plan, p, resume, |plan.queries|).items| == |plan.queries|
    ensures id !in AskFirst(plan, p, resume, |plan.queries|).items[q].verifiedIds
  {
    hide AskFirst;
    hide AskQuery;
    hide Start;
    hide Good;
    hide Reachable;
    hide Offers;
    ItemsStay(plan, p, resume, |plan.queries|, q);
    AskNext(plan, p, resume, q + 1);
    PreviousIs(plan, resume);
    hide Previous;
    hide Find;
    var st := AskFirst(plan, p, resume, q);
    if id in AskFirst(plan, p, resume, q + 1).items[q].verifiedIds {
      AskVerifies(plan, p, Previous(resume), st, plan.queries[q], id);
      var n, c :| c in Offers(plan, p, n, plan.queries[q].text) && c.candidateId == id && Reachable(plan, p, st.shared, c);
      RunAdvances(plan, p, resume, q);
      ReachableBefore(plan, p, Start(plan, resume).shared, st.shared, c);
    }
  }

  // ----- Histories ----------------------------------------------------------------------

  /** The candidate is recorded for the query and was never verified for it. */
  ghost predicate Waiting(plan: Plan, runs: seq<Providers>, q: nat, id: string) {
    && runs != [] && q < |Records(plan, runs)|
    && id in Records(plan, runs)[q].candidateIds && id !in Records(plan, runs)[q].verifiedIds
  }

  ghost predicate StarvesAt(plan: Plan, runs: seq<Providers>, k: nat, q: nat, id: string)
    requires k < |runs| && q < |plan.queries|
  {
    Starves(plan, runs[k], Resume(plan, runs[..k]), q, id)
  }

  /** Among the candidates of a retried query, the unresolved ones are exactly those that wait. */
  lemma UnresolvedAreWaiting(r: QueryProgress)
    requires r.Retryable()
    ensures PriorUnresolvedIds(Some(r)) == Elems(r.candidateIds) - Elems(r.verifiedIds)
  {
    if r.verifiedIds == [] {
      EmptyElems(r.verifiedIds);
    }
  }

  lemma WaitingIsOpen(plan: Plan, runs: seq<Providers>, q: nat, id: string)
    requires plan.Valid() && Waiting(plan, runs, q, id)
    ensures var r := Records(plan, runs)[q]; r.Retryable() && id in PriorUnresolvedIds(Some(r)) && !Stuck(r)
  {
    TerminalMeansVerified(plan, runs);
    hide Records;
    var r := Records(plan, runs)[q];
    assert r in Records(plan, runs);
    assert id in Elems(r.candidateIds) && id !in Elems(r.verifiedIds);
  }

  lemma NextStarves(plan: Plan, runs: seq<Providers>, q: nat, id: string)
    requires plan.Valid() && |runs| > 1 && q < |plan.queries|
    requires Waiting(plan, runs[..|runs| - 1], q, id) && StarvesAt(plan, runs, |runs| - 1, q, id)
    ensures Waiting(plan, runs, q, id)
  {
    hide Records;
    hide Resume;
    hide Starves;
    hide AskFirst;
    hide Good;
    var rest := runs[..|runs| - 1];
    RecordsGrow(plan, runs, |runs| - 1);
    assert id in Elems(Records(plan, rest)[q].candidateIds);
    HistoryResumable(plan, rest);
    RecordsAre(plan, rest);
    RecordsAre(plan, runs);
    RunStarves(plan, runs[|runs| - 1], Resume(plan, rest), q, id);
  }

  /** Over any number of runs that cannot verify it, a waiting candidate keeps its query unfinished,
      and not because the query is stuck. */
  lemma {:induction false} StarvedForever(plan: Plan, runs: seq<Providers>, j: nat, q: nat, id: string)
    requires plan.Valid() && 1 <= j <= |runs| && q < |plan.queries|
    requires Waiting(plan, runs[..j], q, id)
    requires forall k | j <= k < |runs| :: StarvesAt(plan, runs, k, q, id)
    ensures Waiting(plan, runs, q, id)
    ensures !Records(plan, runs)[q].Terminal() && !Stuck(Records(plan, runs)[q])
    decreases |runs|
  {
    hide Records;
    hide Resume;
    hide Stuck;
    hide Waiting;
    if j == |runs| {
      assert runs[..j] == runs;
    } else {
      var rest := runs[..|runs| - 1];
      assert rest[..j] == runs[..j];
      forall k | j <= k < |rest|
        ensures StarvesAt(plan, rest, k, q, id)
      {
        assert rest[..k] == runs[..k];
        assert StarvesAt(plan, runs, k, q, id);
      }
      hide StarvesAt;
      StarvedForever(plan, rest, j, q, id);
      NextStarves(plan, runs, q, id);
    }
    WaitingIsOpen(plan, runs, q, id);
  }

  // ----- A spent budget -----------------------------------------------------------------

  /** Every verification consumes budget, as it does without a cost hook. */
  ghost predicate AlwaysCharges(p: Providers) {
    forall m: nat, c :: Charges(p.cost(m, c))
  }

  lemma {:induction false} SpentStaysSpent(plan: Plan, runs: seq<Providers>, j: nat)
    requires plan.Valid() && 1 <= j <= |runs|
    ensures StartingAttempts(Resume(plan, runs[..j])) <= StartingAttempts(Resume(plan, runs))
    decreases |runs|
  {
    hide StartingAttempts;
    hide LastRun;
    if j == |runs| {
      assert runs[..j] == runs;
    } else {
      var rest := runs[..|runs| - 1];
      assert rest[..j] == runs[..j];
      SpentStaysSpent(plan, rest, j);
      LastAttempts(plan, runs);
      StartsFromLast(plan, runs);
    }
  }

  lemma StartsFromLast(plan: Plan, runs: seq<Providers>)
    requires runs != []
    ensures LastRun(plan, runs).result.attempts <= StartingAttempts(Resume(plan, runs))
  {
    hide AskFirst;
    hide Decide;
    hide FinalReasons;
    hide ByQuery;
  }

  /** Once the attempts a run starts from reach the budget and every verification consumes it, no
      query with an unresolved candidate ever ends, however completely it is answered. */
  lemma SpentForever(plan: Plan, runs: seq<Providers>, j: nat, q: nat, id: string)
    requires plan.Valid() && 1 <= j <= |runs| && q < |plan.queries|
    requires Waiting(plan, runs[..j], q, id)
    requires StartingAttempts(Resume(plan, runs[..j])) >= plan.scope.maxVerifications
    requires forall k | j <= k < |runs| :: AlwaysCharges(runs[k])
    ensures Waiting(plan, runs, q, id)
    ensures !Records(plan, runs)[q].Terminal() && !Stuck(Records(plan, runs)[q])
  {
    hide Records;
    hide Resume;
    hide Stuck;
    hide Waiting;
    hide StartingAttempts;
    forall k | j <= k < |runs|
      ensures StarvesAt(plan, runs, k, q, id)
    {
      assert runs[..k][..j] == runs[..j];
      SpentStaysSpent(plan, runs[..k], j);
      SpentStarves(plan, runs[k], Resume(plan, runs[..k]), q, id);
    }
    hide StarvesAt;
    StarvedForever(plan, runs, j, q, id);
  }

  lemma SpentStarves(plan: Plan, p: Providers, resume: Option<Progress>, q: nat, id: string)
    requires q < |plan.queries| && AlwaysCharges(p) && StartingAttempts(resume) >= plan.scope.maxVerifications
    ensures Starves(plan, p, resume, q, id)
  {
    hide StartingAttempts;
    hide CandidateKey;
    hide Charges;
  }

  // ----- A key already taken ------------------------------------------------------------

  /** Every candidate with this id that a search for query q may bring has the given key. */
  ghost predicate KnownAs(plan: Plan, p: Providers, q: nat, id: string, key: string)
    requires q < |plan.queries|
  {
    forall n, c | c in Offers(plan, p, n, plan.queries[q].text) && c.candidateId == id :: CandidateKey(p.fold, c) == key
  }

  lemma SeededStays(plan: Plan, runs: seq<Providers>, j: nat, b: nat, key: string)
    requires plan.Valid() && 1 <= j <= |runs| && b < |plan.queries|
    requires b < |Records(plan, runs[..j])| && Records(plan, runs[..j])[b].Terminal() && key in Records(plan, runs[..j])[b].candidateIds
    ensures key in Start(plan, Resume(plan, runs)).shared.seen
  {
    hide Execute;
    hide Good;
    RecordsGrow(plan, runs, j);
    HistoryResumable(plan, runs);
    PreviousIs(plan, Resume(plan, runs));
    assert key in SeedOf(Records(plan, runs)[b]);
    SeedsHave(Records(plan, runs), b);
    hide StartingAttempts;
    hide Previous;
  }

  /** Once the key of an unresolved candidate is among the candidate ids of a finished query, the query
      that waits for it never ends, even if its verification is free and would succeed. */
  lemma SeededForever(plan: Plan, runs: seq<Providers>, j: nat, q: nat, id: string, b: nat, key: string)
    requires plan.Valid() && 1 <= j <= |runs| && q < |plan.queries| && b < |plan.queries|
    requires Waiting(plan, runs[..j], q, id)
    requires b < |Records(plan, runs[..j])| && Records(plan, runs[..j])[b].Terminal() && key in Records(plan, runs[..j])[b].candidateIds
    requires forall k | j <= k < |runs| :: KnownAs(plan, runs[k], q, id, key)
    ensures Waiting(plan, runs, q, id)
    ensures !Records(plan, runs)[q].Terminal() && !Stuck(Records(plan, runs)[q])
  {
    hide Records;
    hide Resume;
    hide Stuck;
    hide Waiting;
    hide Start;
    hide Offers;
    hide CandidateKey;
    forall k | j <= k < |runs|
      ensures StarvesAt(plan, runs, k, q, id)
    {
      assert runs[..k][..j] == runs[..j];
      SeededStays(plan, runs[..k], j, b, key);
    }
    hide StarvesAt;
    StarvedForever(plan, runs, j, q, id);
  }
}
