/** Why a search is not clean: every answer that verified nothing is reported, on the record of its
    query and by the run. */
module CounterReasons {
  import opened Collections
  import opened CounterAuthority
  import opened CounterStep
  import opened CounterRun
  import opened CounterHistory
  import opened CounterTrace
  import opened CounterEnds
  import CounterStuck

  /** The reason that an answer gives for verifying nothing. */
  ghost function WhyNot(outcome: VerifyOutcome): string {
    match outcome
    case VerifyTimedOut => "COUNTER_AUTHORITY_VERIFICATION_TIMEOUT"
    case VerifyRaised(e) => "COUNTER_AUTHORITY_VERIFICATION_ERROR:" + e
    case Checked(v) => if v.errorCode == None then "COUNTER_AUTHORITY_CANDIDATE_UNVERIFIED" else v.errorCode.value
  }

  ghost predicate Explains(reasons: set<string>, calls: seq<VerifyCall>) {
    forall call | call in calls && !Verifies(call.outcome) :: WhyNot(call.outcome) in reasons
  }

  // ----- One query ----------------------------------------------------------------------

  /** The reasons of the work explain its calls since state s, and a candidate refused for want of
      budget. */
  ghost predicate WorkExplains(s: Shared, w: Work, queryId: string, calls: seq<VerifyCall>) {
    && w.shared.calls == s.calls + calls && AllOf(calls, queryId)
    && Explains(Elems(w.reasons), calls)
    && (w.stopped ==> "COUNTER_AUTHORITY_VERIFICATION_BUDGET_EXHAUSTED" in w.reasons)
  }

  lemma SettledReasons(w: Work, c: Candidate, key: string, outcome: VerifyOutcome)
    ensures w.reasons <= Settled(w, c, key, outcome).reasons
    ensures !Verifies(outcome) ==> WhyNot(outcome) in Settled(w, c, key, outcome).reasons
  {
    var more := Settled(w, c, key, outcome).reasons;
    if !Verifies(outcome) {
      assert more[|more| - 1] == WhyNot(outcome);
    }
  }

  lemma ExplainsMore(a: set<string>, b: set<string>, calls: seq<VerifyCall>, call: VerifyCall)
    requires Explains(a, calls) && a <= b && (!Verifies(call.outcome) ==> WhyNot(call.outcome) in b)
    ensures Explains(b, calls) && Explains(b, calls + [call])
  {
    hide Verifies;
    hide WhyNot;
  }

  lemma ExamineReasons(plan: Plan, p: Providers, queryId: string, w: Work, c: Candidate)
    ensures var t := Examine(plan, p, queryId, w, c);
            && w.reasons <= t.reasons
            && (t.stopped ==> w.stopped || "COUNTER_AUTHORITY_VERIFICATION_BUDGET_EXHAUSTED" in t.reasons)
            && (t.shared.calls == w.shared.calls
                || exists call :: t.shared.calls == w.shared.calls + [call] && call.queryId == queryId && !t.stopped
                                  && (!Verifies(call.outcome) ==> WhyNot(call.outcome) in t.reasons))
  {
    hide CandidateKey;
    hide WhyNot;
    hide Verifies;
    var key, cost := CandidateKey(p.fold, c), p.cost(w.shared.costCalls, c);
    var outcome := p.verify(|w.shared.calls|, c);
    var call := VerifyCall(queryId, c, key, Charges(cost), outcome);
    CalledTally(w, c, cost, call);
    SettledTally(Called(Listed(w, c, cost), call), c, key, call);
    SettledReasons(Called(Listed(w, c, cost), call), c, key, outcome);
    assert Called(Listed(w, c, cost), call).stopped == w.stopped;
    SettledStops(Called(Listed(w, c, cost), call), c, key, outcome);
    hide Settled;
    hide OfCall;
    hide Elems;
    hide Plus;
  }

  lemma SettledStops(w: Work, c: Candidate, key: string, outcome: VerifyOutcome)
    ensures Settled(w, c, key, outcome).stopped == w.stopped
  {
  }

  lemma ExamineExplains(plan: Plan, p: Providers, queryId: string, s: Shared, w: Work, c: Candidate, calls: seq<VerifyCall>)
    returns (calls': seq<VerifyCall>)
    requires WorkExplains(s, w, queryId, calls)
    ensures WorkExplains(s, Examine(plan, p, queryId, w, c), queryId, calls')
  {
    ExamineReasons(plan, p, queryId, w, c);
    hide Examine;
    hide WhyNot;
    hide Verifies;
    var t := Examine(plan, p, queryId, w, c);
    assert Elems(w.reasons) <= Elems(t.reasons);
    calls' := calls;
    if t.shared.calls != w.shared.calls {
      var call := t.shared.calls[|w.shared.calls|];
      calls' := calls + [call];
      assert s.calls + calls + [call] == s.calls + calls';
      ExplainsMore(Elems(w.reasons), Elems(t.reasons), calls, call);
    }
  }

  lemma {:induction false} ExamineFirstExplains(plan: Plan, p: Providers, queryId: string, s: Shared, cs: seq<Candidate>, n: nat)
    returns (calls: seq<VerifyCall>)
    requires n <= |cs|
    ensures WorkExplains(s, ExamineFirst(plan, p, queryId, Fresh(s), cs, n), queryId, calls)
  {
    hide Examine;
    if n == 0 {
      calls := [];
      assert s.calls + [] == s.calls;
    } else {
      calls := ExamineFirstExplains(plan, p, queryId, s, cs, n - 1);
      hide WorkExplains;
      calls := ExamineExplains(plan, p, queryId, s, ExamineFirst(plan, p, queryId, Fresh(s), cs, n - 1), cs[n - 1], calls);
    }
  }

  /** Why a failed search failed. */
  ghost function WhyFailed(result: ProviderResult): string {
    if result.errorCode != None then result.errorCode.value
    else if result.message != "" then result.message
    else "COUNTER_AUTHORITY_PROVIDER_ERROR"
  }

  /** A search that times out or raises is a failed one, and says so. */
  lemma InterruptedSearches(exception: string)
    ensures AsResult(SearchTimedOut).status == AsResult(SearchRaised(exception)).status == ProviderError
    ensures WhyFailed(AsResult(SearchTimedOut)) == "COUNTER_AUTHORITY_PROVIDER_TIMEOUT"
    ensures WhyFailed(AsResult(SearchRaised(exception))) == "COUNTER_AUTHORITY_PROVIDER_ERROR:" + exception
  {
  }

  /** The query is kept as it was, or it is asked and its reasons are among those of the run: they
      explain its calls, a failed search, and a partial status. */
  ghost predicate QueryExplains(st: RunState, t: RunState, queryId: string, asked: bool, result: ProviderResult, r: QueryProgress,
                                calls: seq<VerifyCall>) {
    && t.items == st.items + [r]
    && t.shared.calls == st.shared.calls + calls && AllOf(calls, queryId)
    && Elems(t.reasons) == Elems(st.reasons) + (if asked then Elems(r.reasons) else {})
    && Explains(Elems(r.reasons), calls)
    && (asked && result.status == ProviderError ==> WhyFailed(result) in r.reasons)
    && (asked && result.status != ProviderError && r.status == Partial ==> "COUNTER_AUTHORITY_SCOPE_PARTIAL" in r.reasons)
  }

  lemma WorkReasons(plan: Plan, st: RunState, prior: Option<QueryProgress>, q: Query, outcome: SearchOutcome, w: Work, calls: seq<VerifyCall>)
    requires AsResult(outcome).status != ProviderError
    requires WorkExplains(Entered(st.shared, outcome), w, q.queryId, calls)
    ensures QueryExplains(st, AfterWork(plan, st, prior, q, outcome, w), q.queryId, true, AsResult(outcome),
                          SearchRecord(plan, prior, q, AsResult(outcome), w), calls)
  {
    var result := AsResult(outcome);
    var reasons := SearchReasons(prior, result, w);
    DedupeKeeps(reasons);
    ElemsConcat(st.reasons, reasons);
    assert Elems(w.reasons) <= Elems(reasons);
    assert Incomplete(prior, result, w) ==> reasons[|reasons| - 1] == "COUNTER_AUTHORITY_SCOPE_PARTIAL";
    hide Dedupe;
    hide AllOf;
    hide WhyNot;
    hide Verifies;
    hide Limited;
    hide Incomplete;
    hide UnresolvedAfter;
    assert "COUNTER_AUTHORITY_SCOPE_PARTIAL" in Elems(Dedupe(reasons)) <==> "COUNTER_AUTHORITY_SCOPE_PARTIAL" in Elems(reasons);
  }

  lemma AskExplains(plan: Plan, p: Providers, previous: seq<QueryProgress>, st: RunState, q: Query)
    returns (r: QueryProgress, calls: seq<VerifyCall>)
    ensures var prior := Find(previous, q.queryId);
            QueryExplains(st, AskQuery(plan, p, previous, st, q), q.queryId, prior.None? || !prior.value.Terminal(),
                          AnswerTo(plan, p, st, q), r, calls)
  {
    var prior := Find(previous, q.queryId);
    hide Find;
    calls := [];
    assert st.shared.calls + [] == st.shared.calls;
    if prior.Some? && prior.value.Terminal() {
      r := prior.value;
      hide AfterError;
      hide AfterSearch;
      hide WhyNot;
    } else {
      var outcome := p.search(|st.searches|, q.text, plan.scope.maxCandidates);
      var result := AsResult(outcome);
      if result.status.ProviderError? {
        r := ErrorRecord(prior, q, result);
        ElemsConcat(st.reasons, ErrorReasons(prior, result));
        assert ErrorReasons(prior, result)[0] == WhyFailed(result);
        hide AfterSearch;
        hide ErrorStatus;
        hide PriorUnresolved;
        hide WhyNot;
      } else {
        var s := Entered(st.shared, outcome);
        var w, cs := Worked(plan, p, q, s, result), Limited(plan, result);
        r := SearchRecord(plan, prior, q, result, w);
        calls := ExamineFirstExplains(plan, p, q.queryId, s, cs, |cs|);
        WorkReasons(plan, st, prior, q, outcome, w, calls);
        hide QueryExplains;
        hide AfterError;
        hide AfterWork;
      }
    }
  }

  // ----- One run ------------------------------------------------------------------------

  /** The query was still open before the run. */
  predicate WasOpen(plan: Plan, resume: Option<Progress>, i: nat)
    requires i < |plan.queries|
    requires resume.Some? ==> |resume.value.queries| == |plan.queries|
  {
    !Before(plan, resume, i).Terminal()
  }

  ghost predicate RunExplains(plan: Plan, resume: Option<Progress>, st: RunState)
    requires Resumable(plan, resume) && |st.items| <= |plan.queries|
  {
    && (forall reason :: reason in Elems(st.reasons) <==>
          exists i | 0 <= i < |st.items| :: WasOpen(plan, resume, i) && reason in st.items[i].reasons)
    && (forall call | call in st.shared.calls && !Verifies(call.outcome) ::
          exists i | 0 <= i < |st.items| :: Reported(plan, resume, st, call, i))
  }

  /** The call was made for query i, which was open, and its reason is on the record. */
  ghost predicate Reported(plan: Plan, resume: Option<Progress>, st: RunState, call: VerifyCall, i: nat)
    requires Resumable(plan, resume) && i < |st.items| <= |plan.queries|
  {
    call.queryId == plan.queries[i].queryId && WhyNot(call.outcome) in st.items[i].reasons
  }

  lemma RunExplainsStep(plan: Plan, resume: Option<Progress>, st: RunState, t: RunState, result: ProviderResult, r: QueryProgress,
                        added: seq<VerifyCall>)
    requires Resumable(plan, resume) && |st.items| < |plan.queries| && RunExplains(plan, resume, st)
    requires QueryExplains(st, t, plan.queries[|st.items|].queryId, WasOpen(plan, resume, |st.items|), result, r, added)
    ensures RunExplains(plan, resume, t)
  {
    hide Good;
    hide WhyNot;
    hide Verifies;
    hide WasOpen;
    hide WhyFailed;
    var n := |st.items|;
    forall reason
      ensures reason in Elems(t.reasons) <==> exists i | 0 <= i < |t.items| :: WasOpen(plan, resume, i) && reason in t.items[i].reasons
    {
      if reason in Elems(st.reasons) {
        var i :| 0 <= i < n && WasOpen(plan, resume, i) && reason in st.items[i].reasons;
        assert t.items[i] == st.items[i];
      }
      if WasOpen(plan, resume, n) && reason in r.reasons {
        assert t.items[n] == r;
      }
      if i :| 0 <= i < |t.items| && WasOpen(plan, resume, i) && reason in t.items[i].reasons {
        assert i < n ==> t.items[i] == st.items[i];
      }
    }
    forall call | call in t.shared.calls && !Verifies(call.outcome)
      ensures exists i | 0 <= i < |t.items| :: Reported(plan, resume, t, call, i)
    {
      if call in added {
        assert Reported(plan, resume, t, call, n);
      } else {
        var i :| 0 <= i < n && Reported(plan, resume, st, call, i);
        assert Reported(plan, resume, t, call, i);
      }
    }
  }

  lemma {:induction false} RunReasons(plan: Plan, p: Providers, resume: Option<Progress>, n: nat)
    requires plan.Valid() && Resumable(plan, resume) && n <= |plan.queries|
    ensures |AskFirst(plan, p, resume, n).items| == n
    ensures RunExplains(plan, resume, AskFirst(plan, p, resume, n))
  {
    hide Good;
    hide AskFirst;
    hide AskQuery;
    RunRecords(plan, p, resume, n);
    FirstQuery(plan, p, resume);
    hide CounterRun.Recorded;
    if n > 0 {
      RunReasons(plan, p, resume, n - 1);
      var st, q := AskFirst(plan, p, resume, n - 1), plan.queries[n - 1];
      AskNext(plan, p, resume, n);
      PriorIs(plan, resume, n - 1);
      hide Previous;
      hide Find;
      var r, added := AskExplains(plan, p, Previous(resume), st, q);
      RunExplainsStep(plan, resume, st, AskFirst(plan, p, resume, n), AnswerTo(plan, p, st, q), r, added);
      hide RunExplains;
    }
  }

  /** The codes that sum up a run. */
  ghost function SummaryOf(status: OverallStatus, verified: bool, exhausted: bool): set<string> {
    (if verified then {"COUNTER_AUTHORITY_RELATION_UNCLASSIFIED"} else {})
    + (if status == NotFoundInScope then {"COUNTER_AUTHORITY_NOT_FOUND_IN_SCOPE"} else {})
    + (if status == PartialOverall then {"COUNTER_AUTHORITY_PARTIAL"} else {})
    + (if status == RetryRequired then {"COUNTER_AUTHORITY_RETRY_REQUIRED"} else {})
    + (if exhausted then {"COUNTER_AUTHORITY_VERIFICATION_BUDGET_TRUNCATED"} else {})
  }

  ghost function SummaryCodes(result: RunResult): set<string> {
    SummaryOf(result.status, result.verifiedSourceIds != {}, result.budgetExhausted)
  }

  lemma AddedOnce(a: seq<string>, code: string)
    ensures Distinct(Dedupe(a + [code])) && Elems(Dedupe(a + [code])) == Elems(a) + {code}
  {
    DedupeKeeps(a + [code]);
    ElemsAppend(a, code);
  }

  lemma FinalReasonsAre(reasons: seq<string>, status: OverallStatus, verified: bool, exhausted: bool)
    ensures Distinct(FinalReasons(reasons, status, verified, exhausted))
    ensures Elems(FinalReasons(reasons, status, verified, exhausted)) == Elems(reasons) + SummaryOf(status, verified, exhausted)
  {
    DedupeKeeps(reasons);
    hide Dedupe;
    hide Distinct;
    hide Elems;
    var r1 := if verified then Dedupe(Dedupe(reasons) + ["COUNTER_AUTHORITY_RELATION_UNCLASSIFIED"]) else Dedupe(reasons);
    AddedOnce(Dedupe(reasons), "COUNTER_AUTHORITY_RELATION_UNCLASSIFIED");
    AddedOnce(r1, "COUNTER_AUTHORITY_NOT_FOUND_IN_SCOPE");
    AddedOnce(r1, "COUNTER_AUTHORITY_PARTIAL");
    AddedOnce(r1, "COUNTER_AUTHORITY_RETRY_REQUIRED");
    var r2 :=
      match status
      case NotFoundInScope => Dedupe(r1 + ["COUNTER_AUTHORITY_NOT_FOUND_IN_SCOPE"])
      case PartialOverall => Dedupe(r1 + ["COUNTER_AUTHORITY_PARTIAL"])
      case RetryRequired => Dedupe(r1 + ["COUNTER_AUTHORITY_RETRY_REQUIRED"])
      case BlockedOverall => r1;
    AddedOnce(r2, "COUNTER_AUTHORITY_VERIFICATION_BUDGET_TRUNCATED");
  }

  lemma FinishReasons(plan: Plan, previous: seq<QueryProgress>, st: RunState)
    ensures var result := Finish(plan, previous, st);
            Distinct(result.reasons) && Elems(result.reasons) == Elems(st.reasons) + SummaryCodes(result)
  {
    var sources := PriorSources(previous) + SourcesOf(st.shared.verifications);
    FinalReasonsAre(st.reasons, Decide(plan, st, sources), sources != {}, st.shared.exhausted);
    hide SummaryOf;
    hide FinalReasons;
    hide Decide;
    hide PriorSources;
    hide PriorEvidence;
    hide NextOrdinal;
    hide Distinct;
    hide Elems;
  }

  /** On the record of the query for which a call verified nothing, its reason is given. */
  ghost predicate CallsExplained(plan: Plan, records: seq<QueryProgress>, calls: seq<VerifyCall>)
    requires |records| == |plan.queries|
  {
    forall call | call in calls && !Verifies(call.outcome) ::
      exists i | 0 <= i < |plan.queries| :: call.queryId == plan.queries[i].queryId && WhyNot(call.outcome) in records[i].reasons
  }

  lemma ResultReasons(plan: Plan, p: Providers, resume: Option<Progress>)
    requires plan.Valid() && Resumable(plan, resume)
    ensures var run := Execute(plan, p, resume);
            var records := run.result.progress.queries;
            && |records| == |plan.queries| && Distinct(run.result.reasons)
            && (forall reason :: reason in Elems(run.result.reasons) <==>
                  || reason in SummaryCodes(run.result)
                  || exists i | 0 <= i < |plan.queries| :: WasOpen(plan, resume, i) && reason in records[i].reasons)
            && CallsExplained(plan, records, run.calls)
  {
    var st := AskFirst(plan, p, resume, |plan.queries|);
    RunReasons(plan, p, resume, |plan.queries|);
    FinishReasons(plan, Previous(resume), st);
    assert CallsExplained(plan, st.items, st.shared.calls) by {
      hide Verifies;
      hide WhyNot;
      hide Good;
      hide WasOpen;
      assert forall call, i | 0 <= i < |st.items| && Reported(plan, resume, st, call, i) ::
               call.queryId == plan.queries[i].queryId && WhyNot(call.outcome) in st.items[i].reasons;
    }
    hide CallsExplained;
    hide AskFirst;
    hide Good;
    hide Decide;
    hide FinalReasons;
    hide Previous;
    hide PriorSources;
    hide PriorEvidence;
    hide NextOrdinal;
    hide Distinct;
    hide WasOpen;
    hide SummaryCodes;
    hide Elems;
  }

  // ----- Whole histories ----------------------------------------------------------------

  /** The reasons a run reports, each once: those on the records of the queries it asked, and the codes
      that sum it up. Each call that verified nothing is explained on the record of its query. */
  lemma ReasonsAreReported(plan: Plan, runs: seq<Providers>)
    requires plan.Valid() && runs != []
    ensures var run, records := LastRun(plan, runs), Records(plan, runs);
            && |records| == |plan.queries| && Distinct(run.result.reasons)
            && (forall reason :: reason in Elems(run.result.reasons) <==>
                  || reason in SummaryCodes(run.result)
                  || exists i | 0 <= i < |plan.queries| ::
                       (PriorRecord(plan, runs, i).None? || !PriorRecord(plan, runs, i).value.Terminal()) && reason in records[i].reasons)
            && CallsExplained(plan, records, run.calls)
  {
    var rest := runs[..|runs| - 1];
    HistoryResumable(plan, rest);
    ResultReasons(plan, runs[|runs| - 1], Resume(plan, rest));
    forall i | 0 <= i < |plan.queries|
      ensures WasOpen(plan, Resume(plan, rest), i) <==> PriorRecord(plan, runs, i).None? || !PriorRecord(plan, runs, i).value.Terminal()
    {
      PriorRecordIs(plan, runs, i);
    }
    hide Execute;
    hide Good;
    hide CallsExplained;
    hide SummaryCodes;
    hide Elems;
    hide Distinct;
    hide WasOpen;
    hide PriorRecord;
  }

  /** An open query whose search failed says why, and one that stays partial says so. */
  lemma QueryReasons(plan: Plan, runs: seq<Providers>, q: nat)
    requires plan.Valid() && runs != [] && q < |plan.queries|
    requires PriorRecord(plan, runs, q).Some? ==> !PriorRecord(plan, runs, q).value.Terminal()
    ensures |Records(plan, runs)| == |plan.queries|
    ensures var r, result := Records(plan, runs)[q], LastAnswer(plan, runs, q);
            && (result.status == ProviderError ==> WhyFailed(result) in r.reasons)
            && (result.status != ProviderError && r.status == Partial ==> "COUNTER_AUTHORITY_SCOPE_PARTIAL" in r.reasons)
  {
    hide Records;
    hide Resume;
    hide PriorRecord;
    hide AnswerTo;
    hide Resumable;
    hide AskFirst;
    hide WhyFailed;
    PriorRecordIs(plan, runs, q);
    CounterStuck.RecordsAre(plan, runs);
    RunQueryReasons(plan, runs[|runs| - 1], Resume(plan, runs[..|runs| - 1]), q);
  }

  lemma RunQueryReasons(plan: Plan, p: Providers, resume: Option<Progress>, q: nat)
    requires plan.Valid() && Resumable(plan, resume) && q < |plan.queries|
    requires resume.Some? ==> resume.value.queries[q].Retryable()
    ensures var items, st := AskFirst(plan, p, resume, |plan.queries|).items, AskFirst(plan, p, resume, q);
            var result := AnswerTo(plan, p, st, plan.queries[q]);
            && |items| == |plan.queries|
            && (result.status == ProviderError ==> WhyFailed(result) in items[q].reasons)
            && (result.status != ProviderError && items[q].status == Partial ==> "COUNTER_AUTHORITY_SCOPE_PARTIAL" in items[q].reasons)
  {
    hide AnswerTo;
    hide Good;
    hide AskFirst;
    hide AskQuery;
    hide Previous;
    hide Find;
    hide WhyFailed;
    hide Explains;
    hide Elems;
    AskNext(plan, p, resume, q + 1);
    PriorIs(plan, resume, q);
    ItemsStay(plan, p, resume, |plan.queries|, q);
    var r, calls := AskExplains(plan, p, Previous(resume), AskFirst(plan, p, resume, q), plan.queries[q]);
  }
}
