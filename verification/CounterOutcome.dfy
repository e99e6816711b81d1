/** How each query and each run of a history end: their statuses, in terms of the answers given and
    of the records left behind. */
module CounterOutcome {
  import opened Collections
  import opened CounterAuthority
  import opened CounterStep
  import opened CounterRun
  import opened CounterHistory
  import opened CounterStuck
  import opened CounterEnds

  // ----- What an unfinished record still carries ------------------------------------------

  /** An unfinished record that still waits for a candidate it names waits for those it has not
      verified. */
  lemma UnresolvedAre(r: QueryProgress)
    ensures PriorUnresolvedIds(Some(r)) ==
              if r.status in {Partial, Failed, Blocked} then Elems(r.candidateIds) - Elems(r.verifiedIds) else {}
  {
  }

  /** A record is stuck when it is unfinished, has verified every candidate it names, and counts more
      or has once been left unresolved. */
  lemma StuckMeans(r: QueryProgress)
    ensures Stuck(r) <==>
              && r.status in {Partial, Failed, Blocked}
              && Elems(r.candidateIds) <= Elems(r.verifiedIds)
              && (r.candidateCount > |r.verifiedIds| || "COUNTER_AUTHORITY_PRIOR_CANDIDATE_UNRESOLVED" in r.reasons)
  {
    UnresolvedAre(r);
    DifferenceEmpty(Elems(r.candidateIds), Elems(r.verifiedIds));
    hide Elems;
    hide PriorUnresolvedIds;
  }

  /** An earlier run has left something on the record, or marked it as unresolved. */
  ghost predicate Carries(prior: Option<QueryProgress>) {
    && prior.Some?
    && var r := prior.value;
    r.candidateCount > 0 || r.candidateIds != [] || r.verifiedIds != [] || "COUNTER_AUTHORITY_PRIOR_CANDIDATE_UNRESOLVED" in r.reasons
  }

  // ----- The status of a query ------------------------------------------------------------

  /** An error leaves what was there partial, and otherwise fails the query or, for two codes, blocks
      it. Any other answer ends the query as the provider says, or leaves it partial. */
  ghost function StatusGiven(plan: Plan, p: Providers, s: Shared, result: ProviderResult, prior: Option<QueryProgress>): QueryStatus {
    match result.status
    case ProviderError =>
      if Carries(prior) then Partial
      else if result.errorCode in {Some("OFFICIAL_SOURCE_BLOCKED"), Some("PRIVACY_EXTERNAL_QUERY_BLOCKED")} then Blocked
      else Failed
    case ProviderPartial => Partial
    case ProviderFound => if Ends(plan, p, s, result, prior) then Found else Partial
    case ProviderNotFound => if Ends(plan, p, s, result, prior) then NotFound else Partial
  }

  lemma ErrorStatusIs(prior: Option<QueryProgress>, errorCode: Option<string>)
    requires prior.Some? ==> prior.value.Retryable()
    ensures ErrorStatus(prior, errorCode) ==
              if Carries(prior) then Partial
              else if errorCode in {Some("OFFICIAL_SOURCE_BLOCKED"), Some("PRIVACY_EXTERNAL_QUERY_BLOCKED")} then Blocked
              else Failed
  {
    if prior.Some? {
      UnresolvedAre(prior.value);
      if prior.value.candidateIds == [] {
        assert Elems(prior.value.candidateIds) == {};
      }
    }
    hide PriorUnresolvedIds;
    hide Elems;
  }

  lemma AskStatus(plan: Plan, p: Providers, previous: seq<QueryProgress>, st: RunState, q: Query)
    requires Find(previous, q.queryId).Some? ==> Find(previous, q.queryId).value.Retryable()
    ensures var t, prior := AskQuery(plan, p, previous, st, q), Find(previous, q.queryId);
            var result := AnswerTo(plan, p, st, q);
            && |t.items| == |st.items| + 1
            && var r := t.items[|st.items|];
            && r.status == StatusGiven(plan, p, st.shared, result, prior)
            && r.providerStatus == Some(result.status) && r.providerErrorCode == result.errorCode
  {
    AskEnds(plan, p, previous, st, q);
    var outcome, prior := p.search(|st.searches|, q.text, plan.scope.maxCandidates), Find(previous, q.queryId);
    ErrorStatusIs(prior, AsResult(outcome).errorCode);
    hide Find;
    hide Worked;
    hide ErrorStatus;
    hide Carries;
    hide Ends;
    hide Resolves;
    hide Due;
    hide Ids;
    hide StuckBefore;
    hide ErrorReasons;
    hide SearchReasons;
    hide UnresolvedAfter;
    hide Limited;
  }

  lemma RunStatus(plan: Plan, p: Providers, resume: Option<Progress>, q: nat)
    requires plan.Valid() && Resumable(plan, resume) && q < |plan.queries|
    requires resume.Some? ==> resume.value.queries[q].Retryable()
    ensures var items, st := AskFirst(plan, p, resume, |plan.queries|).items, AskFirst(plan, p, resume, q);
            var result := AnswerTo(plan, p, st, plan.queries[q]);
            && |items| == |plan.queries|
            && items[q].status == StatusGiven(plan, p, st.shared, result, Prior(resume, q))
            && items[q].providerStatus == Some(result.status) && items[q].providerErrorCode == result.errorCode
  {
    hide StatusGiven;
    hide AnswerTo;
    hide Good;
    hide AskFirst;
    hide AskQuery;
    hide Previous;
    hide Find;
    AskNext(plan, p, resume, q + 1);
    PriorIs(plan, resume, q);
    ItemsStay(plan, p, resume, |plan.queries|, q);
    AskStatus(plan, p, Previous(resume), AskFirst(plan, p, resume, q), plan.queries[q]);
  }

  /** The last run of any history gives an unfinished query exactly this status. */
  lemma QueryStatusIs(plan: Plan, runs: seq<Providers>, q: nat)
    requires plan.Valid() && runs != [] && q < |plan.queries|
    requires PriorRecord(plan, runs, q).Some? ==> !PriorRecord(plan, runs, q).value.Terminal()
    ensures |Records(plan, runs)| == |plan.queries|
    ensures var p, s, result := runs[|runs| - 1], LastState(plan, runs, q).shared, LastAnswer(plan, runs, q);
            var r := Records(plan, runs)[q];
            && r.status == StatusGiven(plan, p, s, result, PriorRecord(plan, runs, q))
            && r.providerStatus == Some(result.status) && r.providerErrorCode == result.errorCode
  {
    hide Records;
    hide Resume;
    hide PriorRecord;
    hide StatusGiven;
    hide AnswerTo;
    hide Resumable;
    hide AskFirst;
    PriorRecordIs(plan, runs, q);
    RecordsAre(plan, runs);
    RunStatus(plan, runs[|runs| - 1], Resume(plan, runs[..|runs| - 1]), q);
  }

  // ----- The status of a run --------------------------------------------------------------

  lemma {:induction false} CountsSome(items: seq<QueryProgress>)
    ensures CountTerminal(items) > 0 <==> exists r :: r in items && r.Terminal()
  {
    if items != [] {
      CountsSome(items[..|items| - 1]);
      assert items == items[..|items| - 1] + [items[|items| - 1]];
    }
  }

  /** What a run reports of its records. */
  ghost function StatusOfRun(records: seq<QueryProgress>, sources: set<string>, exhausted: bool): OverallStatus {
    if sources != {} || exhausted then PartialOverall
    else if forall r | r in records :: r.status == NotFound then NotFoundInScope
    else if exists r | r in records :: r.status == Found || r.status == NotFound then PartialOverall
    else if exists r | r in records :: r.status == Blocked then BlockedOverall
    else RetryRequired
  }

  ghost predicate AllEnded(records: seq<QueryProgress>) {
    forall r | r in records :: r.status == Found || r.status == NotFound
  }

  lemma DecideIs(plan: Plan, st: RunState, sources: set<string>)
    requires |st.items| == |plan.queries| && plan.queries != []
    requires st.completed == CountTerminal(st.items) && st.cleanMisses == CountMisses(st.items)
    requires AllEnded(st.items) ==> st.shared.failures == 0
    ensures Decide(plan, st, sources) == StatusOfRun(st.items, sources, st.shared.exhausted)
    ensures st.completed == |plan.queries| && st.shared.failures == 0 <==> AllEnded(st.items)
  {
    CountsAll(st.items);
    CountsSome(st.items);
    hide CountTerminal;
    hide CountMisses;
    assert st.items[0] in st.items;
  }

  lemma ResultStatus(plan: Plan, p: Providers, resume: Option<Progress>)
    requires plan.Valid() && Resumable(plan, resume)
    ensures var result := Execute(plan, p, resume).result;
            && result.status == StatusOfRun(result.progress.queries, result.verifiedSourceIds, result.budgetExhausted)
            && (result.coverageComplete <==> AllEnded(result.progress.queries) && !result.budgetExhausted)
            && (result.relationUnclassified <==> result.verifiedSourceIds != {})
            && result.verifiedCount == |result.verifiedSourceIds|
            && (result.absenceClaimAllowed <==> result.status == NotFoundInScope)
  {
    var n := |plan.queries|;
    RunCounts(plan, p, resume, n);
    RunRecords(plan, p, resume, n);
    var st := AskFirst(plan, p, resume, n);
    hide AskFirst;
    hide Good;
    hide Grows;
    hide FinalReasons;
    hide PriorSources;
    hide PriorEvidence;
    hide NextOrdinal;
    DecideIs(plan, st, PriorSources(Previous(resume)) + SourcesOf(st.shared.verifications));
    hide Decide;
    hide StatusOfRun;
    hide AllEnded;
    hide CountTerminal;
    hide CountMisses;
    hide Previous;
  }

  /** After any history: a search that has verified sources or spent its budget is partial; otherwise
      nothing was found when every query says so, a retry is needed when none has ended and none is
      blocked, and coverage is complete when all queries have ended. */
  lemma OutcomeMeans(plan: Plan, runs: seq<Providers>)
    requires plan.Valid() && runs != []
    ensures var result := LastRun(plan, runs).result;
            && result.status == StatusOfRun(Records(plan, runs), result.verifiedSourceIds, result.budgetExhausted)
            && (result.coverageComplete <==> AllEnded(Records(plan, runs)) && !result.budgetExhausted)
            && (result.relationUnclassified <==> result.verifiedSourceIds != {})
            && result.verifiedCount == |result.verifiedSourceIds|
            && (result.absenceClaimAllowed <==> result.status == NotFoundInScope)
  {
    hide Execute;
    hide StatusOfRun;
    hide AllEnded;
    HistoryResumable(plan, runs[..|runs| - 1]);
    ResultStatus(plan, runs[|runs| - 1], Resume(plan, runs[..|runs| - 1]));
  }
}
