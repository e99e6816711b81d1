/** The executor itself: nested loops over queries and candidates that update the run's
    counters, sets and lists in place, proved to do exactly what CounterAuthority.Execute says. */
module CounterExecutor {
  import opened Collections
  import opened CounterAuthority
  import opened CounterStep

  /** Once the budget stops a query, the remaining candidates are not looked at. */
  lemma {:induction false} StoppedStays(plan: Plan, p: Providers, queryId: string, w: Work, cs: seq<Candidate>, n: nat, m: nat)
    requires n <= m <= |cs|
    requires ExamineFirst(plan, p, queryId, w, cs, n).stopped
    ensures ExamineFirst(plan, p, queryId, w, cs, m) == ExamineFirst(plan, p, queryId, w, cs, n)
  {
    if n < m {
      StoppedStays(plan, p, queryId, w, cs, n, m - 1);
    }
  }

  /** The dictionary of earlier records, filled in one assignment at a time. */
  method ReadPrevious(resume: Option<Progress>) returns (previous: seq<QueryProgress>)
    ensures previous == Previous(resume)
  {
    previous := [];
    if resume.Some? {
      var records := resume.value.queries;
      for i := 0 to |records|
        invariant previous == ByQuery(records[..i])
      {
        assert records[..i + 1][..i] == records[..i];
        previous := Put(previous, records[i]);
      }
      assert records[..|records|] == records;
    }
  }

  method SeedCandidates(previous: seq<QueryProgress>)
    returns (seen: set<string>, sources: set<string>, evidence: set<string>)
    ensures seen == Seeds(previous)
    ensures sources == PriorSources(previous)
    ensures evidence == PriorEvidence(previous)
  {
    seen, sources, evidence := {}, {}, {};
    for i := 0 to |previous|
      invariant seen == Seeds(previous[..i])
      invariant sources == PriorSources(previous[..i])
      invariant evidence == PriorEvidence(previous[..i])
    {
      var r := previous[i];
      assert previous[..i + 1][..i] == previous[..i];
      if r.Terminal() {
        seen := seen + Elems(r.candidateIds);
      } else {
        seen := seen + Elems(r.verifiedIds);
        seen := seen + Elems(r.verifiedKeys);
      }
      sources := sources + Elems(r.sourceIds);
      evidence := evidence + Elems(r.evidenceIds);
    }
    assert previous[..|previous|] == previous;
  }

  /** What the answer of one verification call does to the query's lists. */
  method SettleCandidate(w: Work, c: Candidate, key: string, outcome: VerifyOutcome) returns (settled: Work)
    ensures settled == Settled(w, c, key, outcome)
    ensures var accepted := Verifies(outcome);
            && settled.verifiedIds == (if accepted then w.verifiedIds + [c.candidateId] else w.verifiedIds)
            && settled.verifiedKeys == (if accepted then w.verifiedKeys + [key] else w.verifiedKeys)
            && (settled.failed <==> w.failed || !accepted)
            && (settled.shared.failures > w.shared.failures <==> !outcome.Checked?)
            && settled.candidateIds == w.candidateIds && settled.charged == w.charged
            && settled.shared.seen == w.shared.seen && settled.shared.attempts == w.shared.attempts
  {
    var failures: nat, verifications := w.shared.failures, w.shared.verifications;
    var verifiedIds, verifiedKeys, sources, evidence := w.verifiedIds, w.verifiedKeys, w.sources, w.evidence;
    var reasons, failed := w.reasons, w.failed;
    match outcome {
      case VerifyTimedOut =>
        failures := failures + 1;
        failed := true;
        reasons := reasons + ["COUNTER_AUTHORITY_VERIFICATION_TIMEOUT"];
      case VerifyRaised(exception) =>
        failures := failures + 1;
        failed := true;
        reasons := reasons + ["COUNTER_AUTHORITY_VERIFICATION_ERROR:" + exception];
      case Checked(v) =>
        if v.Eligible() {
          verifications := verifications + [v];
          verifiedIds := verifiedIds + [c.candidateId];
          verifiedKeys := verifiedKeys + [key];
          sources := sources + [v.source.value.sourceId];
          evidence := evidence + EligibleIds(v.evidence);
        } else {
          failed := true;
          reasons := reasons + [if v.errorCode.Some? then v.errorCode.value
                                else "COUNTER_AUTHORITY_CANDIDATE_UNVERIFIED"];
        }
    }
    settled := w.(shared := w.shared.(failures := failures, verifications := verifications),
                  verifiedIds := verifiedIds, verifiedKeys := verifiedKeys, sources := sources,
                  evidence := evidence, reasons := reasons, failed := failed);
  }

  /** The candidate is listed; a cost hook that raises consumes budget and fails the query. */
  method ListCandidate(w0: Work, candidate: Candidate, cost: CostOutcome) returns (w: Work, consumesBudget: bool)
    ensures w == Listed(w0, candidate, cost)
    ensures consumesBudget == Charges(cost)
  {
    w := w0.(candidateIds := w0.candidateIds + [candidate.candidateId],
             shared := w0.shared.(candidateTotal := w0.shared.candidateTotal + 1, costCalls := w0.shared.costCalls + 1));
    if cost.Consumes? {
      consumesBudget := cost.yes;
    } else {
      consumesBudget := true;
      w := w.(failed := true,
              reasons := w.reasons + ["COUNTER_AUTHORITY_VERIFICATION_COST_ERROR:" + cost.exception]);
    }
  }

  /** The budget is charged and the key is marked before the provider is called. */
  method ChargeCandidate(w0: Work, call: VerifyCall) returns (w: Work)
    ensures w == Called(w0, call)
  {
    var attempts: nat, charged: nat := w0.shared.attempts, w0.charged;
    if call.charged {
      attempts := attempts + 1;
      charged := charged + 1;
    }
    w := w0.(charged := charged,
             shared := w0.shared.(attempts := attempts,
                                  seen := w0.shared.seen + {call.key},
                                  calls := w0.shared.calls + [call]));
  }

  /** One pass of the candidate loop; `stopped` reports that the budget ended it. */
  method ExamineCandidate(plan: Plan, p: Providers, q: Query, w0: Work, candidate: Candidate) returns (w: Work)
    requires !w0.stopped
    ensures w == Examine(plan, p, q.queryId, w0, candidate)
  {
    w := w0;
    var key := CandidateKey(p.fold, candidate);
    if key in w.shared.seen {
      return;
    }
    var verifyCalls, consumesBudget := |w.shared.calls|, true;
    w, consumesBudget := ListCandidate(w, candidate, p.cost(w.shared.costCalls, candidate));
    if consumesBudget && w.shared.attempts >= plan.scope.maxVerifications {
      w := w.(shared := w.shared.(exhausted := true),
              failed := true,
              reasons := w.reasons + ["COUNTER_AUTHORITY_VERIFICATION_BUDGET_EXHAUSTED"],
              stopped := true);
      return;
    }
    var outcome := p.verify(verifyCalls, candidate);
    w := ChargeCandidate(w, VerifyCall(q.queryId, candidate, key, consumesBudget, outcome));
    w := SettleCandidate(w, candidate, key, outcome);
  }

  /** The loop over one query's candidates. */
  method ExamineCandidates(plan: Plan, p: Providers, q: Query, shared: Shared, result: ProviderResult)
    returns (w: Work)
    ensures w == Worked(plan, p, q, shared, result)
  {
    var candidates := Limited(plan, result);
    w := Fresh(shared);
    for i := 0 to |candidates|
      invariant !w.stopped
      invariant w == ExamineFirst(plan, p, q.queryId, Fresh(shared), candidates, i)
    {
      w := ExamineCandidate(plan, p, q, w, candidates[i]);
      if w.stopped {
        StoppedStays(plan, p, q.queryId, Fresh(shared), candidates, i + 1, |candidates|);
        break;
      }
    }
  }

  /** The counters and lists of the run take in one finished query. */
  method RecordQuery(st0: RunState, w: Work, record: QueryProgress, queryReasons: seq<string>, call: SearchCall)
    returns (st: RunState)
    ensures st == Recorded(st0, w, record, queryReasons, call)
  {
    var failures: nat, completed: nat, cleanMisses: nat := w.shared.failures, st0.completed, st0.cleanMisses;
    if record.status.Partial? {
      failures := failures + 1;
    }
    if record.status.NotFound? {
      cleanMisses := cleanMisses + 1;
    }
    if record.Terminal() {
      completed := completed + 1;
    }
    st := RunState(w.shared.(failures := failures), completed, cleanMisses,
                   st0.items + [record], st0.reasons + queryReasons, st0.searches + [call]);
  }

  /** Earlier entries first, then the new ones, each once. */
  method MergeLists(earlier: seq<string>, added: seq<string>) returns (merged: seq<string>)
    ensures merged == Dedupe(earlier + added)
    ensures Distinct(merged) && Elems(merged) == Elems(earlier) + Elems(added)
  {
    var all := earlier + added;
    merged := [];
    for i := 0 to |all|
      invariant merged == Dedupe(all[..i])
    {
      assert all[..i + 1][..i] == all[..i];
      if all[i] !in merged {
        merged := merged + [all[i]];
      }
    }
    assert all[..|all|] == all;
    DedupeKeeps(all);
    ElemsConcat(earlier, added);
  }

  /** How the query ends, and the reasons it reports. */
  method ConcludeQuery(prior: Option<QueryProgress>, result: ProviderResult, w: Work)
    returns (status: QueryStatus, queryReasons: seq<string>)
    ensures status == SearchStatus(prior, result, w) && queryReasons == SearchReasons(prior, result, w)
    ensures status.Partial? || status.NotFound? || status.Found?
  {
    var unresolved := PriorUnresolved(prior)
                      && (PriorUnresolvedIds(prior) == {} || PriorUnresolvedIds(prior) - Elems(w.verifiedIds) != {});
    hide PriorUnresolved;
    hide PriorUnresolvedIds;
    hide Elems;
    queryReasons := w.reasons;
    if unresolved {
      queryReasons := queryReasons + [UNRESOLVED];
    }
    if result.status.ProviderPartial? || !result.coverageComplete || w.failed || unresolved {
      status := Partial;
      queryReasons := queryReasons + ["COUNTER_AUTHORITY_SCOPE_PARTIAL"];
    } else if result.status.ProviderNotFound? {
      status := NotFound;
    } else {
      status := Found;
    }
  }

  /** The record of the query takes in what earlier runs recorded. */
  method MergeRecord(plan: Plan, prior: Option<QueryProgress>, q: Query, result: ProviderResult, w: Work)
    returns (record: QueryProgress, queryReasons: seq<string>)
    ensures record == SearchRecord(plan, prior, q, result, w) && queryReasons == SearchReasons(prior, result, w)
  {
    hide Dedupe;
    hide Elems;
    hide Distinct;
    hide SearchStatus;
    hide SearchReasons;
    hide Limited;
    var base := Base(prior, q.queryId);
    var candidateIds := MergeLists(base.candidateIds, w.candidateIds);
    var verifiedIds := MergeLists(base.verifiedIds, w.verifiedIds);
    var verifiedKeys := MergeLists(base.verifiedKeys, w.verifiedKeys);
    var sources := MergeLists(base.sourceIds, w.sources);
    var evidence := MergeLists(base.evidenceIds, w.evidence);
    var status;
    status, queryReasons := ConcludeQuery(prior, result, w);
    var listed := MergeLists([], queryReasons);
    assert [] + queryReasons == queryReasons;
    record := QueryProgress(q.queryId, status, Some(result.status), result.errorCode,
                            Max(Max(base.candidateCount, |candidateIds|), |Limited(plan, result)|), |sources|,
                            base.attemptCount + w.charged, candidateIds, verifiedIds, verifiedKeys, sources, evidence, listed);
  }

  /** A query whose candidates have been examined: the merged record extends the earlier one, is only
      terminal with every candidate verified, and counts as a failure exactly when it is partial. */
  method RecordWork(plan: Plan, st0: RunState, prior: Option<QueryProgress>, q: Query, outcome: SearchOutcome, w: Work)
    returns (st: RunState)
    ensures st == AfterWork(plan, st0, prior, q, outcome, w)
    ensures |st.items| == |st0.items| + 1 && st.items[..|st0.items|] == st0.items
    ensures st.shared.failures == w.shared.failures + Count(st.items[|st0.items|].status.Partial?)
    ensures (prior.Some? ==> Good(prior.value) && !prior.value.Terminal() && prior.value.queryId == q.queryId)
            && Sound(plan.scope.maxVerifications, Entered(st0.shared, outcome), w) ==>
              && Grows(Base(prior, q.queryId), st.items[|st0.items|]) && Good(st.items[|st0.items|])
              && (st.items[|st0.items|].Terminal() ==>
                    Elems(st.items[|st0.items|].candidateIds) == Elems(st.items[|st0.items|].verifiedIds))
  {
    hide Sound;
    hide Grows;
    hide SearchReasons;
    hide SearchRecord;
    hide Elems;
    var record, queryReasons := MergeRecord(plan, prior, q, AsResult(outcome), w);
    st := RecordQuery(st0, w, record, queryReasons, SearchCall(q.queryId, outcome));
    if (prior.Some? ==> Good(prior.value) && !prior.value.Terminal() && prior.value.queryId == q.queryId)
       && Sound(plan.scope.maxVerifications, Entered(st0.shared, outcome), w) {
      SearchRecordKeeps(plan, prior, q, AsResult(outcome), Entered(st0.shared, outcome), w);
    }
  }

  /** One pass of the query loop: a terminal record is kept, every other query is searched. */
  method AskOne(plan: Plan, p: Providers, previous: seq<QueryProgress>, st0: RunState, q: Query) returns (st: RunState)
    ensures st == AskQuery(plan, p, previous, st0, q)
  {
    hide Worked;
    hide AfterWork;
    hide ErrorRecord;
    hide ErrorReasons;
    hide SearchFailures;
    var prior := Find(previous, q.queryId);
    hide Find;
    if prior.Some? && prior.value.Terminal() {
      st := st0.(items := st0.items + [prior.value],
                 completed := st0.completed + 1,
                 cleanMisses := st0.cleanMisses + Count(prior.value.status.NotFound?));
      return;
    }
    var outcome := p.search(|st0.searches|, q.text, plan.scope.maxCandidates);
    var shared := st0.shared.(failures := st0.shared.failures + SearchFailures(outcome));
    if AsResult(outcome).status.ProviderError? {
      st := st0.(shared := shared,
                 reasons := st0.reasons + ErrorReasons(prior, AsResult(outcome)),
                 items := st0.items + [ErrorRecord(prior, q, AsResult(outcome))],
                 searches := st0.searches + [SearchCall(q.queryId, outcome)]);
    } else {
      var w := ExamineCandidates(plan, p, q, shared, AsResult(outcome));
      st := RecordWork(plan, st0, prior, q, outcome, w);
    }
  }

  /** The loop over the plan's queries. */
  method AskQueries(plan: Plan, p: Providers, resume: Option<Progress>, previous: seq<QueryProgress>, start: RunState)
    returns (st: RunState)
    requires previous == Previous(resume) && start == Start(plan, resume)
    ensures st == AskFirst(plan, p, resume, |plan.queries|)
  {
    st := start;
    for i := 0 to |plan.queries|
      invariant st == AskFirst(plan, p, resume, i)
    {
      st := AskOne(plan, p, previous, st, plan.queries[i]);
    }
  }

  /** The cursor: the first ordinal whose record is missing or open. */
  method NextRetryOrdinal(plan: Plan, items: seq<QueryProgress>) returns (ordinal: nat)
    ensures ordinal == NextOrdinal(plan.queries, |plan.queries|, items)
  {
    for i := 0 to |plan.queries|
      invariant NextOrdinal(plan.queries, |plan.queries|, items) == NextOrdinal(plan.queries[i..], |plan.queries|, items)
    {
      var current := Find(items, plan.queries[i].queryId);
      assert plan.queries[i..][1..] == plan.queries[i + 1..];
      if current.None? || !current.value.Terminal() {
        return plan.queries[i].ordinal;
      }
    }
    ordinal := |plan.queries| + 1;
  }

  method ExecuteBounded(plan: Plan, p: Providers, resume: Option<Progress>)
    returns (r: Result<RunResult>, verifications: seq<Verification>, ghost searches: seq<SearchCall>, ghost calls: seq<VerifyCall>)
    ensures r.Err? <==> resume.Some? && resume.value.planId != plan.planId
    ensures r.Err? ==> r.error == "COUNTER_AUTHORITY_RESUME_PLAN_MISMATCH" && verifications == [] && searches == [] && calls == []
    ensures r.Ok? ==> r.value == Execute(plan, p, resume).result
                      && verifications == Execute(plan, p, resume).verifications
                      && searches == Execute(plan, p, resume).searches && calls == Execute(plan, p, resume).calls
  {
    if resume.Some? && resume.value.planId != plan.planId {
      return Err("COUNTER_AUTHORITY_RESUME_PLAN_MISMATCH"), [], [], [];
    }
    var previous := ReadPrevious(resume);
    var seen, priorSources, priorEvidence := SeedCandidates(previous);
    var attempts := StartingAttempts(resume);
    var start := RunState(Shared(seen, attempts, attempts >= plan.scope.maxVerifications, 0, 0, [], 0, []), 0, 0, [], [], []);
    var st := AskQueries(plan, p, resume, previous, start);
    var ordinal := NextRetryOrdinal(plan, st.items);
    var progress := Progress(plan.planId, |plan.queries|, st.shared.attempts, ordinal, st.items);
    var sources := priorSources + SourcesOf(st.shared.verifications);
    var evidence := priorEvidence + EvidenceOf(st.shared.verifications);
    var status := Decide(plan, st, sources);
    r := Ok(RunResult(status, progress, st.shared.candidateTotal, |sources|, sources, evidence,
                      st.shared.attempts, st.shared.exhausted,
                      st.completed == |plan.queries| && st.shared.failures == 0 && !st.shared.exhausted,
                      sources != {}, status.NotFoundInScope?,
                      FinalReasons(st.reasons, status, sources != {}, st.shared.exhausted)));
    verifications, searches, calls := st.shared.verifications, st.searches, st.shared.calls;
  }
}
