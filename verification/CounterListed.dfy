/** Which candidates a run looks at, and which of them its records list. */
module CounterListed {
  import opened Collections
  import opened CounterAuthority
  import opened CounterStep
  import opened CounterRun
  import opened CounterHistory
  import opened CounterTrace

  ghost function CalledIds(calls: seq<VerifyCall>): set<string> {
    set call | call in calls :: call.candidate.candidateId
  }

  ghost function CalledKeys(calls: seq<VerifyCall>): set<string> {
    set call | call in calls :: call.key
  }

  ghost predicate AllSeen(fold: string -> string, cs: seq<Candidate>, seen: set<string>) {
    forall c | c in cs :: CandidateKey(fold, c) in seen
  }

  // ----- One query ----------------------------------------------------------------------

  /** The work lists the candidates that were called, and one more when the budget stopped it; unless
      it did, the keys of all candidates so far have been seen. */
  ghost predicate Looked(budget: nat, fold: string -> string, queryId: string, s: Shared, w: Work, cs: seq<Candidate>, calls: seq<VerifyCall>) {
    && w.shared.calls == s.calls + calls && AllOf(calls, queryId)
    && w.shared.seen == s.seen + CalledKeys(calls)
    && CalledIds(calls) <= Elems(w.candidateIds)
    && |w.candidateIds| == |calls| + Count(w.stopped)
    && w.shared.candidateTotal == s.candidateTotal + |w.candidateIds|
    && (w.stopped ==> w.shared.exhausted && w.shared.attempts >= budget)
    && (!w.stopped ==>
          && Elems(w.candidateIds) == CalledIds(calls) && w.shared.exhausted == s.exhausted
          && AllSeen(fold, cs, w.shared.seen))
  }

  lemma OneMoreCalled(calls: seq<VerifyCall>, call: VerifyCall)
    ensures CalledIds(calls + [call]) == CalledIds(calls) + {call.candidate.candidateId}
    ensures CalledKeys(calls + [call]) == CalledKeys(calls) + {call.key}
  {
    assert forall x :: x in calls + [call] <==> x in calls || x == call;
  }

  lemma OneMoreSeen(fold: string -> string, cs: seq<Candidate>, c: Candidate, seen: set<string>, more: set<string>)
    requires AllSeen(fold, cs, seen) && seen <= more && CandidateKey(fold, c) in more
    ensures AllSeen(fold, cs + [c], more)
  {
    hide CandidateKey;
    assert forall x :: x in cs + [c] <==> x in cs || x == c;
  }

  lemma ExamineCases(plan: Plan, p: Providers, queryId: string, w: Work, c: Candidate) returns (call: VerifyCall)
    ensures call.queryId == queryId && call.candidate == c && call.key == CandidateKey(p.fold, c)
    ensures var t := Examine(plan, p, queryId, w, c);
            if w.stopped || call.key in w.shared.seen then t == w
            else
              && t.candidateIds == w.candidateIds + [c.candidateId]
              && t.shared.candidateTotal == w.shared.candidateTotal + 1
              && if t.stopped then
                   && t.shared.exhausted && t.shared.attempts == w.shared.attempts >= plan.scope.maxVerifications
                   && t.shared.calls == w.shared.calls && t.shared.seen == w.shared.seen
                 else
                   && t.shared.exhausted == w.shared.exhausted
                   && t.shared.calls == w.shared.calls + [call] && t.shared.seen == w.shared.seen + {call.key}
  {
    hide CandidateKey;
    call := VerifyCall(queryId, c, CandidateKey(p.fold, c), Charges(p.cost(w.shared.costCalls, c)), p.verify(|w.shared.calls|, c));
    SettledShared(Called(Listed(w, c, p.cost(w.shared.costCalls, c)), call), c, call.key, call.outcome);
    hide Settled;
  }

  lemma SettledShared(w: Work, c: Candidate, key: string, outcome: VerifyOutcome)
    ensures var t := Settled(w, c, key, outcome);
            && t.candidateIds == w.candidateIds && t.stopped == w.stopped
            && t.shared == w.shared.(failures := t.shared.failures, verifications := t.shared.verifications)
  {
  }

  lemma ExamineLooks(plan: Plan, p: Providers, queryId: string, s: Shared, w: Work, cs: seq<Candidate>, c: Candidate, calls: seq<VerifyCall>)
    returns (calls': seq<VerifyCall>)
    requires Looked(plan.scope.maxVerifications, p.fold, queryId, s, w, cs, calls)
    ensures Looked(plan.scope.maxVerifications, p.fold, queryId, s, Examine(plan, p, queryId, w, c), cs + [c], calls')
  {
    var call := ExamineCases(plan, p, queryId, w, c);
    var t := Examine(plan, p, queryId, w, c);
    calls' := if |t.shared.calls| > |w.shared.calls| then calls + [call] else calls;
    hide CandidateKey;
    hide Examine;
    OneMoreCalled(calls, call);
    ElemsAppend(w.candidateIds, c.candidateId);
    assert s.calls + calls + [call] == s.calls + (calls + [call]);
    if !t.stopped && !w.stopped {
      OneMoreSeen(p.fold, cs, c, w.shared.seen, t.shared.seen);
    }
    hide AllSeen;
    hide Elems;
    hide CalledIds;
    hide CalledKeys;
  }

  lemma {:induction false} ExamineFirstLooks(plan: Plan, p: Providers, queryId: string, s: Shared, cs: seq<Candidate>, n: nat)
    returns (calls: seq<VerifyCall>)
    requires n <= |cs|
    ensures Looked(plan.scope.maxVerifications, p.fold, queryId, s, ExamineFirst(plan, p, queryId, Fresh(s), cs, n), cs[..n], calls)
  {
    hide Examine;
    if n == 0 {
      calls := [];
      assert s.calls + [] == s.calls;
      assert Elems<string>([]) == {} && CalledIds([]) == {};
    } else {
      calls := ExamineFirstLooks(plan, p, queryId, s, cs, n - 1);
      assert cs[..n] == cs[..n - 1] + [cs[n - 1]];
      hide Looked;
      calls := ExamineLooks(plan, p, queryId, s, ExamineFirst(plan, p, queryId, Fresh(s), cs, n - 1), cs[..n - 1], cs[n - 1], calls);
    }
  }

  /** Every candidate that the search returned within the limit has been seen. */
  ghost predicate SearchSeen(plan: Plan, fold: string -> string, search: SearchCall, seen: set<string>) {
    search.outcome.Answered? && search.outcome.result.status != ProviderError ==>
      forall j | 0 <= j < |search.outcome.result.candidates| && j < plan.scope.maxCandidates ::
        CandidateKey(fold, search.outcome.result.candidates[j]) in seen
  }

  /** From st to t the query is asked: what is seen and counted grows by its calls, and by one more
      candidate at most when the budget ran out. */
  ghost predicate QueryLooked(plan: Plan, fold: string -> string, base: QueryProgress, st: RunState, t: RunState, r: QueryProgress,
                              calls: seq<VerifyCall>) {
    && t.items == st.items + [r]
    && t.shared.calls == st.shared.calls + calls && AllOf(calls, base.queryId)
    && t.shared.seen == st.shared.seen + CalledKeys(calls)
    && st.shared.candidateTotal + |calls| <= t.shared.candidateTotal <= st.shared.candidateTotal + |calls| + 1
    && st.shared.attempts <= t.shared.attempts
    && Elems(base.candidateIds) + CalledIds(calls) <= Elems(r.candidateIds)
    && (t.shared.exhausted ==> st.shared.exhausted || t.shared.attempts >= plan.scope.maxVerifications)
    && (!t.shared.exhausted ==>
          && !st.shared.exhausted
          && t.shared.candidateTotal == st.shared.candidateTotal + |calls|
          && Elems(r.candidateIds) == Elems(base.candidateIds) + CalledIds(calls))
    && (t.searches == st.searches
        || (|t.searches| == |st.searches| + 1 && st.searches <= t.searches
            && (!t.shared.exhausted ==> SearchSeen(plan, fold, t.searches[|st.searches|], t.shared.seen))))
  }

  lemma WorkLooked(plan: Plan, p: Providers, st: RunState, prior: Option<QueryProgress>, q: Query, outcome: SearchOutcome, w: Work,
                   calls: seq<VerifyCall>)
    requires prior.Some? ==> prior.value.queryId == q.queryId
    requires Looked(plan.scope.maxVerifications, p.fold, q.queryId, Entered(st.shared, outcome), w, Limited(plan, AsResult(outcome)), calls)
    requires (st.shared.exhausted ==> w.shared.exhausted) && st.shared.attempts <= w.shared.attempts
    ensures QueryLooked(plan, p.fold, Base(prior, q.queryId), st, AfterWork(plan, st, prior, q, outcome, w),
                        SearchRecord(plan, prior, q, AsResult(outcome), w), calls)
  {
    var base, t := Base(prior, q.queryId), AfterWork(plan, st, prior, q, outcome, w);
    Merged(base.candidateIds, w.candidateIds);
    hide Elems;
    hide Dedupe;
    hide AllOf;
    hide CalledIds;
    hide CalledKeys;
    hide SearchReasons;
    hide SearchStatus;
    hide CandidateKey;
    assert t.searches[|st.searches|] == SearchCall(q.queryId, outcome);
    if !w.shared.exhausted && outcome.Answered? {
      var cs := Limited(plan, outcome.result);
      forall j | 0 <= j < |outcome.result.candidates| && j < plan.scope.maxCandidates
        ensures CandidateKey(p.fold, outcome.result.candidates[j]) in t.shared.seen
      {
        assert outcome.result.candidates[j] == cs[j] && cs[j] in cs;
      }
    }
  }

  lemma AskLooks(plan: Plan, p: Providers, previous: seq<QueryProgress>, st: RunState, q: Query)
    returns (r: QueryProgress, calls: seq<VerifyCall>)
    ensures QueryLooked(plan, p.fold, Base(Find(previous, q.queryId), q.queryId), st, AskQuery(plan, p, previous, st, q), r, calls)
  {
    var prior := Find(previous, q.queryId);
    hide Find;
    hide Elems;
    hide CandidateKey;
    calls := [];
    assert st.shared.calls + [] == st.shared.calls && CalledKeys([]) == {} && CalledIds([]) == {};
    assert st.shared.seen + {} == st.shared.seen;
    if prior.Some? && prior.value.Terminal() {
      r := prior.value;
      hide AfterError;
      hide AfterSearch;
    } else {
      var outcome := p.search(|st.searches|, q.text, plan.scope.maxCandidates);
      var result := AsResult(outcome);
      if result.status.ProviderError? {
        r := ErrorRecord(prior, q, result);
        hide AfterSearch;
        hide ErrorReasons;
        hide ErrorStatus;
      } else {
        var s := Entered(st.shared, outcome);
        var w, cs := Worked(plan, p, q, s, result), Limited(plan, result);
        r := SearchRecord(plan, prior, q, result, w);
        calls := ExamineFirstLooks(plan, p, q.queryId, s, cs, |cs|);
        assert cs[..|cs|] == cs;
        ExamineFirstKeeps(plan, p, q.queryId, s, cs, |cs|);
        WorkLooked(plan, p, st, prior, q, outcome, w, calls);
        hide QueryLooked;
        hide AfterError;
        hide AfterWork;
      }
    }
  }

  // ----- One run ------------------------------------------------------------------------

  ghost function IdsFor(calls: seq<VerifyCall>, queryId: string): set<string> {
    set call | call in calls && call.queryId == queryId :: call.candidate.candidateId
  }

  ghost predicate AllSearchesSeen(plan: Plan, fold: string -> string, searches: seq<SearchCall>, seen: set<string>) {
    forall search | search in searches :: SearchSeen(plan, fold, search, seen)
  }

  /** A record lists the candidates it had and those called for its query, and no others unless the
      budget has run out. */
  ghost predicate Lists(base: QueryProgress, r: QueryProgress, calls: seq<VerifyCall>, queryId: string, exhausted: bool) {
    && Elems(base.candidateIds) + IdsFor(calls, queryId) <= Elems(r.candidateIds)
    && (!exhausted ==> Elems(r.candidateIds) == Elems(base.candidateIds) + IdsFor(calls, queryId))
  }

  ghost predicate AllListed(plan: Plan, resume: Option<Progress>, st: RunState)
    requires Resumable(plan, resume) && |st.items| <= |plan.queries|
  {
    && OfFirst(plan, |st.items|, st.shared.calls)
    && forall i | 0 <= i < |st.items| ::
         Lists(Before(plan, resume, i), st.items[i], st.shared.calls, plan.queries[i].queryId, st.shared.exhausted)
  }

  /** What the run has seen and counted. */
  ghost predicate Counted(plan: Plan, fold: string -> string, resume: Option<Progress>, st: RunState) {
    && st.shared.seen == Seeds(Previous(resume)) + CalledKeys(st.shared.calls)
    && |st.shared.calls| <= st.shared.candidateTotal <= |st.shared.calls| + |st.items|
    && (st.shared.exhausted ==> st.shared.attempts >= plan.scope.maxVerifications)
    && (StartingAttempts(resume) >= plan.scope.maxVerifications ==> st.shared.exhausted)
    && (!st.shared.exhausted ==>
          st.shared.candidateTotal == |st.shared.calls| && AllSearchesSeen(plan, fold, st.searches, st.shared.seen))
  }

  lemma MoreCalled(a: seq<VerifyCall>, b: seq<VerifyCall>, queryId: string)
    ensures CalledKeys(a + b) == CalledKeys(a) + CalledKeys(b)
    ensures IdsFor(a + b, queryId) == IdsFor(a, queryId) + IdsFor(b, queryId)
    ensures AllOf(b, queryId) ==> IdsFor(b, queryId) == CalledIds(b)
    ensures (forall call | call in b :: call.queryId != queryId) ==> IdsFor(b, queryId) == {}
  {
    assert forall x :: x in a + b <==> x in a || x in b;
  }

  lemma SeenStays(plan: Plan, fold: string -> string, st: RunState, t: RunState)
    requires AllSearchesSeen(plan, fold, st.searches, st.shared.seen) && st.shared.seen <= t.shared.seen
    requires t.searches == st.searches
             || (|t.searches| == |st.searches| + 1 && st.searches <= t.searches
                 && SearchSeen(plan, fold, t.searches[|st.searches|], t.shared.seen))
    ensures AllSearchesSeen(plan, fold, t.searches, t.shared.seen)
  {
    hide CandidateKey;
    forall search | search in t.searches
      ensures SearchSeen(plan, fold, search, t.shared.seen)
    {
      var i :| 0 <= i < |t.searches| && t.searches[i] == search;
      if i < |st.searches| {
        assert search == st.searches[i] && SearchSeen(plan, fold, search, st.shared.seen);
      }
    }
  }

  /** The calls were made for the first n queries. */
  ghost predicate OfFirst(plan: Plan, n: nat, calls: seq<VerifyCall>)
    requires n <= |plan.queries|
  {
    forall call | call in calls :: exists i | 0 <= i < n :: call.queryId == plan.queries[i].queryId
  }

  lemma OfFirstStep(plan: Plan, n: nat, calls: seq<VerifyCall>, added: seq<VerifyCall>)
    requires n < |plan.queries| && OfFirst(plan, n, calls) && AllOf(added, plan.queries[n].queryId)
    ensures OfFirst(plan, n + 1, calls + added)
  {
    forall call | call in calls + added
      ensures exists i | 0 <= i < n + 1 :: call.queryId == plan.queries[i].queryId
    {
      if call in added {
        assert call.queryId == plan.queries[n].queryId;
      }
    }
  }

  lemma ListsStep(plan: Plan, resume: Option<Progress>, st: RunState, t: RunState, r: QueryProgress, added: seq<VerifyCall>, i: nat)
    requires plan.Valid() && Resumable(plan, resume) && |st.items| < |plan.queries| && i <= |st.items|
    requires t.items == st.items + [r] && t.shared.calls == st.shared.calls + added
    requires OfFirst(plan, |st.items|, st.shared.calls) && AllOf(added, plan.queries[|st.items|].queryId)
    requires !t.shared.exhausted ==> !st.shared.exhausted
    requires i < |st.items| ==> Lists(Before(plan, resume, i), st.items[i], st.shared.calls, plan.queries[i].queryId, st.shared.exhausted)
    requires i == |st.items| ==>
               && Elems(Before(plan, resume, i).candidateIds) + CalledIds(added) <= Elems(r.candidateIds)
               && (!t.shared.exhausted ==> Elems(r.candidateIds) == Elems(Before(plan, resume, i).candidateIds) + CalledIds(added))
    ensures Lists(Before(plan, resume, i), t.items[i], t.shared.calls, plan.queries[i].queryId, t.shared.exhausted)
  {
    hide Good;
    hide Elems;
    MoreCalled(st.shared.calls, added, plan.queries[i].queryId);
    if i < |st.items| {
      assert forall call | call in added :: call.queryId != plan.queries[i].queryId;
    } else {
      NothingFor(st.shared.calls, plan.queries[i].queryId);
    }
    hide CalledIds;
    hide IdsFor;
  }

  lemma AllListedStep(plan: Plan, fold: string -> string, resume: Option<Progress>, st: RunState, t: RunState, r: QueryProgress,
                      added: seq<VerifyCall>)
    requires plan.Valid() && Resumable(plan, resume) && |st.items| < |plan.queries|
    requires AllListed(plan, resume, st)
    requires QueryLooked(plan, fold, Before(plan, resume, |st.items|), st, t, r, added)
    ensures AllListed(plan, resume, t)
  {
    var n := |st.items|;
    assert Before(plan, resume, n).queryId == plan.queries[n].queryId;
    OfFirstStep(plan, n, st.shared.calls, added);
    hide Good;
    hide OfFirst;
    hide AllOf;
    hide SearchSeen;
    hide Lists;
    hide Elems;
    hide Before;
    forall i | 0 <= i <= n
      ensures Lists(Before(plan, resume, i), t.items[i], t.shared.calls, plan.queries[i].queryId, t.shared.exhausted)
    {
      ListsStep(plan, resume, st, t, r, added, i);
    }
    hide QueryLooked;
  }

  lemma CountedStep(plan: Plan, fold: string -> string, resume: Option<Progress>, base: QueryProgress, st: RunState, t: RunState,
                    r: QueryProgress, added: seq<VerifyCall>)
    requires Counted(plan, fold, resume, st) && QueryLooked(plan, fold, base, st, t, r, added)
    ensures Counted(plan, fold, resume, t)
  {
    hide AllOf;
    hide SearchSeen;
    hide Seeds;
    hide Previous;
    hide StartingAttempts;
    hide Elems;
    if !t.shared.exhausted {
      SeenStays(plan, fold, st, t);
    }
    MoreCalled(st.shared.calls, added, base.queryId);
    hide AllSearchesSeen;
    hide CalledKeys;
    hide CalledIds;
  }

  lemma NothingFor(calls: seq<VerifyCall>, queryId: string)
    requires forall call | call in calls :: call.queryId != queryId
    ensures IdsFor(calls, queryId) == {}
  {
  }

  lemma {:induction false} RunLooks(plan: Plan, p: Providers, resume: Option<Progress>, n: nat)
    requires plan.Valid() && Resumable(plan, resume) && n <= |plan.queries|
    ensures var st := AskFirst(plan, p, resume, n);
            |st.items| == n && Counted(plan, p.fold, resume, st) && AllListed(plan, resume, st)
  {
    hide Good;
    hide AskFirst;
    hide AskQuery;
    RunRecords(plan, p, resume, n);
    FirstQuery(plan, p, resume);
    hide CounterRun.Recorded;
    if n == 0 {
      StartLooked(plan, p.fold, resume);
      hide Counted;
      hide AllListed;
    } else {
      RunLooks(plan, p, resume, n - 1);
      hide Counted;
      hide AllListed;
      var st := AskFirst(plan, p, resume, n - 1);
      PreviousIs(plan, resume);
      AskNext(plan, p, resume, n);
      hide Previous;
      hide Find;
      var r, added := AskLooks(plan, p, Previous(resume), st, plan.queries[n - 1]);
      AllListedStep(plan, p.fold, resume, st, AskFirst(plan, p, resume, n), r, added);
      CountedStep(plan, p.fold, resume, Before(plan, resume, n - 1), st, AskFirst(plan, p, resume, n), r, added);
      hide QueryLooked;
    }
  }

  lemma StartLooked(plan: Plan, fold: string -> string, resume: Option<Progress>)
    requires Resumable(plan, resume)
    ensures Counted(plan, fold, resume, Start(plan, resume)) && AllListed(plan, resume, Start(plan, resume))
  {
    hide Seeds;
    hide StartingAttempts;
    assert CalledKeys([]) == {};
  }

  // ----- Whole histories ----------------------------------------------------------------

  /** Unless the budget has run out, every candidate that a search of the run returned within the limit
      has been passed to verification in this run or was seeded by an earlier record, and the candidate
      count is the number of those calls. In any case each query counts at most one candidate more. */
  lemma EveryCandidateIsLookedAt(plan: Plan, runs: seq<Providers>)
    requires plan.Valid() && runs != []
    ensures var run := LastRun(plan, runs);
            && |run.calls| <= run.result.candidateCount <= |run.calls| + |plan.queries|
            && (!run.result.budgetExhausted ==>
                  && run.result.candidateCount == |run.calls|
                  && AllSearchesSeen(plan, runs[|runs| - 1].fold, run.searches,
                                     CalledKeys(run.calls) + (if |runs| == 1 then {} else Seeds(Records(plan, runs[..|runs| - 1])))))
  {
    var rest, p := runs[..|runs| - 1], runs[|runs| - 1];
    HistoryResumable(plan, rest);
    RunLooks(plan, p, Resume(plan, rest), |plan.queries|);
    PreviousIs(plan, Resume(plan, rest));
    hide AskFirst;
    hide Good;
    hide AllSearchesSeen;
    hide CalledKeys;
    hide Seeds;
    hide AllListed;
    hide Decide;
    hide FinalReasons;
    hide NextOrdinal;
    hide StartingAttempts;
  }

  lemma RunLists(plan: Plan, p: Providers, resume: Option<Progress>, i: nat)
    requires plan.Valid() && Resumable(plan, resume) && i < |plan.queries|
    ensures var run := Execute(plan, p, resume);
            && |run.result.progress.queries| == |plan.queries|
            && Lists(Before(plan, resume, i), run.result.progress.queries[i], run.calls, plan.queries[i].queryId, run.result.budgetExhausted)
            && (run.result.budgetExhausted ==> run.result.progress.attempts >= plan.scope.maxVerifications)
            && (StartingAttempts(resume) >= plan.scope.maxVerifications ==> run.result.budgetExhausted)
  {
    RunLooks(plan, p, resume, |plan.queries|);
    hide AskFirst;
    hide Good;
    hide AllSearchesSeen;
    hide CalledKeys;
    hide Seeds;
    hide Lists;
    hide Decide;
    hide FinalReasons;
    hide NextOrdinal;
    hide StartingAttempts;
    hide Previous;
    hide OfFirst;
  }

  lemma StartsFromReported(resume: Option<Progress>)
    ensures resume.Some? ==> StartingAttempts(resume) >= resume.value.attempts
  {
    hide Previous;
    hide SumAttempts;
    hide LegacyAttempts;
  }

  /** A budget that has run out stays so. */
  lemma ExhaustedStays(plan: Plan, runs: seq<Providers>)
    requires plan.Valid() && |runs| > 1 && LastRun(plan, runs[..|runs| - 1]).result.budgetExhausted
    ensures LastRun(plan, runs).result.budgetExhausted
  {
    hide Execute;
    hide Good;
    hide Lists;
    hide StartingAttempts;
    var rest := runs[..|runs| - 1];
    HistoryResumable(plan, rest);
    HistoryResumable(plan, rest[..|rest| - 1]);
    RunLists(plan, rest[|rest| - 1], Resume(plan, rest[..|rest| - 1]), 0);
    RunLists(plan, runs[|runs| - 1], Resume(plan, rest), 0);
    StartsFromReported(Resume(plan, rest));
  }

  /** A record lists every candidate that was ever passed to verification for its query, and as long as
      the budget has not run out, no other. */
  lemma {:induction false} CandidatesAreCalled(plan: Plan, runs: seq<Providers>, i: nat)
    requires plan.Valid() && runs != [] && i < |plan.queries|
    ensures |Records(plan, runs)| == |plan.queries|
    ensures IdsFor(AllCalls(plan, runs), plan.queries[i].queryId) <= Elems(Records(plan, runs)[i].candidateIds)
    ensures !LastRun(plan, runs).result.budgetExhausted ==>
              Elems(Records(plan, runs)[i].candidateIds) == IdsFor(AllCalls(plan, runs), plan.queries[i].queryId)
  {
    hide Execute;
    hide Good;
    var rest, id := runs[..|runs| - 1], plan.queries[i].queryId;
    HistoryResumable(plan, rest);
    RunLists(plan, runs[|runs| - 1], Resume(plan, rest), i);
    MoreCalled(AllCalls(plan, rest), LastRun(plan, runs).calls, id);
    assert IdsFor([], id) == {};
    hide IdsFor;
    if rest != [] {
      CandidatesAreCalled(plan, rest, i);
      if LastRun(plan, rest).result.budgetExhausted {
        ExhaustedStays(plan, runs);
      }
      hide Elems;
    } else {
      assert Elems<string>([]) == {};
    }
  }
}
