/** What the records and the results of a history owe to its verification calls: everything they
    report is the answer of some call, and nothing that a call verified is left out. */
module CounterTrace {
  import opened Collections
  import opened CounterAuthority
  import opened CounterStep
  import opened CounterRun
  import opened CounterHistory

  /** What calls add to the record of a query. */
  datatype Tally = Tally(ids: set<string>, keys: set<string>, sources: set<string>, evidence: set<string>, charged: nat)

  const NOTHING := Tally({}, {}, {}, {}, 0)

  ghost function Plus(a: Tally, b: Tally): Tally {
    Tally(a.ids + b.ids, a.keys + b.keys, a.sources + b.sources, a.evidence + b.evidence, a.charged + b.charged)
  }

  ghost function OfCall(call: VerifyCall): Tally {
    if Verifies(call.outcome) then
      var v := call.outcome.verification;
      Tally({call.candidate.candidateId}, {call.key}, {v.source.value.sourceId},
            set e | e in v.evidence && e.eligible :: e.evidenceId, Count(call.charged))
    else NOTHING.(charged := Count(call.charged))
  }

  ghost function OfCalls(calls: seq<VerifyCall>, queryId: string): Tally {
    if calls == [] then NOTHING
    else
      var before, last := OfCalls(calls[..|calls| - 1], queryId), calls[|calls| - 1];
      if last.queryId == queryId then Plus(before, OfCall(last)) else before
  }

  function OfRecord(r: QueryProgress): Tally {
    Tally(Elems(r.verifiedIds), Elems(r.verifiedKeys), Elems(r.sourceIds), Elems(r.evidenceIds), r.attemptCount)
  }

  function OfWork(w: Work): Tally {
    Tally(Elems(w.verifiedIds), Elems(w.verifiedKeys), Elems(w.sources), Elems(w.evidence), w.charged)
  }

  lemma {:induction false} OfCallsConcat(a: seq<VerifyCall>, b: seq<VerifyCall>, queryId: string)
    ensures OfCalls(a + b, queryId) == Plus(OfCalls(a, queryId), OfCalls(b, queryId))
  {
    hide OfCall;
    if b == [] {
      assert a + b == a;
    } else {
      var rest, last := b[..|b| - 1], b[|b| - 1];
      OfCallsConcat(a, rest, queryId);
      assert (a + b)[..|a + b| - 1] == a + rest && (a + b)[|a + b| - 1] == last;
      PlusAssociative(OfCalls(a, queryId), OfCalls(rest, queryId), OfCall(last));
      hide Plus;
    }
  }

  lemma PlusAssociative(a: Tally, b: Tally, c: Tally)
    ensures Plus(Plus(a, b), c) == Plus(a, Plus(b, c))
  {
  }

  lemma {:induction false} OfOthers(calls: seq<VerifyCall>, queryId: string)
    requires forall call | call in calls :: call.queryId != queryId
    ensures OfCalls(calls, queryId) == NOTHING
  {
    if calls != [] {
      OfOthers(calls[..|calls| - 1], queryId);
      assert calls[|calls| - 1] in calls;
    }
  }

  // ----- One query ----------------------------------------------------------------------

  ghost predicate AllOf(calls: seq<VerifyCall>, queryId: string) {
    forall call | call in calls :: call.queryId == queryId
  }

  ghost predicate AllVerified(calls: seq<VerifyCall>) {
    forall call | call in calls :: Verifies(call.outcome)
  }

  /** The work of a query is what its calls since state s amount to; unless the query has failed, all
      of them verified. */
  ghost predicate Tallied(s: Shared, w: Work, queryId: string, calls: seq<VerifyCall>) {
    && w.shared.calls == s.calls + calls
    && AllOf(calls, queryId)
    && OfWork(w) == OfCalls(calls, queryId)
    && (!w.failed ==> AllVerified(calls))
  }

  lemma {:induction false} EligibleIdsAre(evidence: seq<Evidence>)
    ensures Elems(EligibleIds(evidence)) == set e | e in evidence && e.eligible :: e.evidenceId
  {
    if evidence != [] {
      var rest, last := evidence[..|evidence| - 1], evidence[|evidence| - 1];
      EligibleIdsAre(rest);
      assert evidence == rest + [last];
      ElemsConcat(EligibleIds(rest), if last.eligible then [last.evidenceId] else []);
    }
  }

  lemma VerifiedTally(w: Work, c: Candidate, key: string, v: Verification, call: VerifyCall)
    requires call.outcome == Checked(v) && call.candidate == c && call.key == key && v.Eligible()
    ensures OfWork(Settled(w, c, key, Checked(v))) == Plus(OfWork(w), OfCall(call).(charged := 0))
  {
    ElemsAppend(w.verifiedIds, c.candidateId);
    ElemsAppend(w.verifiedKeys, key);
    EligibleIdsAre(v.evidence);
    ElemsConcat(w.evidence, EligibleIds(v.evidence));
    ElemsAppend(w.sources, v.source.value.sourceId);
    hide Elems;
    hide EligibleIds;
  }

  lemma SettledTally(w: Work, c: Candidate, key: string, call: VerifyCall)
    requires call.candidate == c && call.key == key
    ensures var t := Settled(w, c, key, call.outcome);
            && OfWork(t) == Plus(OfWork(w), OfCall(call).(charged := 0))
            && t.shared.calls == w.shared.calls
            && (!t.failed ==> !w.failed && Verifies(call.outcome))
  {
    hide Elems;
    hide EligibleIds;
    if Verifies(call.outcome) {
      VerifiedTally(w, c, key, call.outcome.verification, call);
    }
  }

  lemma CalledTally(w: Work, c: Candidate, cost: CostOutcome, call: VerifyCall)
    ensures var t := Called(Listed(w, c, cost), call);
            && OfWork(t) == Plus(OfWork(w), NOTHING.(charged := Count(call.charged)))
            && t.shared.calls == w.shared.calls + [call]
            && (!t.failed ==> !w.failed)
  {
  }

  lemma OneMoreCall(calls: seq<VerifyCall>, call: VerifyCall)
    requires AllOf(calls, call.queryId)
    ensures AllOf(calls + [call], call.queryId)
    ensures OfCalls(calls + [call], call.queryId) == Plus(OfCalls(calls, call.queryId), OfCall(call))
    ensures AllVerified(calls) && Verifies(call.outcome) ==> AllVerified(calls + [call])
  {
    assert (calls + [call])[..|calls|] == calls;
    hide OfCall;
    hide Verifies;
  }

  lemma InTwoSteps(a: Tally, call: VerifyCall)
    ensures Plus(Plus(a, NOTHING.(charged := Count(call.charged))), OfCall(call).(charged := 0)) == Plus(a, OfCall(call))
  {
  }

  lemma ExamineTally(plan: Plan, p: Providers, queryId: string, s: Shared, w: Work, c: Candidate, calls: seq<VerifyCall>)
    returns (calls': seq<VerifyCall>)
    requires Tallied(s, w, queryId, calls)
    ensures Tallied(s, Examine(plan, p, queryId, w, c), queryId, calls')
  {
    hide CandidateKey;
    hide Verifies;
    hide Elems;
    hide OfCall;
    hide AllOf;
    hide AllVerified;
    hide OfCalls;
    var key, cost := CandidateKey(p.fold, c), p.cost(w.shared.costCalls, c);
    calls' := calls;
    if !w.stopped && key !in w.shared.seen && !(Charges(cost) && w.shared.attempts >= plan.scope.maxVerifications) {
      var outcome := p.verify(|w.shared.calls|, c);
      var call := VerifyCall(queryId, c, key, Charges(cost), outcome);
      calls' := calls + [call];
      OneMoreCall(calls, call);
      InTwoSteps(OfWork(w), call);
      CalledTally(w, c, cost, call);
      SettledTally(Called(Listed(w, c, cost), call), c, key, call);
      assert s.calls + calls + [call] == s.calls + calls';
      hide Settled;
      hide Called;
      hide OfWork;
    } else {
      hide Settled;
      hide Called;
    }
  }

  lemma {:induction false} ExamineFirstTally(plan: Plan, p: Providers, queryId: string, s: Shared, cs: seq<Candidate>, n: nat)
    returns (calls: seq<VerifyCall>)
    requires n <= |cs|
    ensures Tallied(s, ExamineFirst(plan, p, queryId, Fresh(s), cs, n), queryId, calls)
  {
    hide Examine;
    if n == 0 {
      calls := [];
      assert s.calls + [] == s.calls;
    } else {
      calls := ExamineFirstTally(plan, p, queryId, s, cs, n - 1);
      hide Tallied;
      calls := ExamineTally(plan, p, queryId, s, ExamineFirst(plan, p, queryId, Fresh(s), cs, n - 1), cs[n - 1], calls);
    }
  }

  // ----- One record ---------------------------------------------------------------------

  /** From st to t the query is asked: its record r is the one before and what the new calls add. */
  ghost predicate Extends(base: QueryProgress, st: RunState, t: RunState, r: QueryProgress, calls: seq<VerifyCall>) {
    && t.items == st.items + [r]
    && t.shared.calls == st.shared.calls + calls
    && AllOf(calls, base.queryId)
    && OfRecord(r) == Plus(OfRecord(base), OfCalls(calls, base.queryId))
    && (r.Terminal() ==> AllVerified(calls))
  }

  lemma WorkExtends(plan: Plan, st: RunState, prior: Option<QueryProgress>, q: Query, outcome: SearchOutcome, w: Work, calls: seq<VerifyCall>)
    requires prior.Some? ==> prior.value.queryId == q.queryId
    requires Tallied(Entered(st.shared, outcome), w, q.queryId, calls)
    ensures Extends(Base(prior, q.queryId), st, AfterWork(plan, st, prior, q, outcome, w),
                    SearchRecord(plan, prior, q, AsResult(outcome), w), calls)
  {
    var base := Base(prior, q.queryId);
    Merged(base.verifiedIds, w.verifiedIds);
    Merged(base.verifiedKeys, w.verifiedKeys);
    Merged(base.sourceIds, w.sources);
    Merged(base.evidenceIds, w.evidence);
    hide Elems;
    hide Dedupe;
    hide AllOf;
    hide AllVerified;
    hide OfCalls;
    hide SearchReasons;
    hide Limited;
    hide UnresolvedAfter;
  }

  lemma AskExtends(plan: Plan, p: Providers, previous: seq<QueryProgress>, st: RunState, q: Query)
    returns (r: QueryProgress, calls: seq<VerifyCall>)
    ensures Extends(Base(Find(previous, q.queryId), q.queryId), st, AskQuery(plan, p, previous, st, q), r, calls)
  {
    var prior := Find(previous, q.queryId);
    hide Find;
    hide Elems;
    calls := [];
    assert st.shared.calls + [] == st.shared.calls;
    if prior.Some? && prior.value.Terminal() {
      r := prior.value;
      hide AfterError;
      hide AfterSearch;
    } else {
      var outcome := p.search(|st.searches|, q.text, plan.scope.maxCandidates);
      var result := AsResult(outcome);
      if result.status.ProviderError? {
        r := ErrorRecord(prior, q, result);
        hide AfterSearch;
        hide ErrorReasons;
      } else {
        var s := Entered(st.shared, outcome);
        var w := Worked(plan, p, q, s, result);
        var cs := Limited(plan, result);
        r := SearchRecord(plan, prior, q, result, w);
        calls := ExamineFirstTally(plan, p, q.queryId, s, cs, |cs|);
        WorkExtends(plan, st, prior, q, outcome, w, calls);
        hide Extends;
        hide AfterError;
        hide AfterWork;
      }
    }
  }

  // ----- One run ------------------------------------------------------------------------

  /** Up to query n, each record is the one before the run and what the calls for its query add. */
  ghost predicate RunTallied(plan: Plan, resume: Option<Progress>, items: seq<QueryProgress>, calls: seq<VerifyCall>)
    requires Resumable(plan, resume) && |items| <= |plan.queries|
  {
    && (forall call | call in calls :: exists i | 0 <= i < |items| :: call.queryId == plan.queries[i].queryId)
    && forall i | 0 <= i < |items| ::
         && OfRecord(items[i]) == Plus(OfRecord(Before(plan, resume, i)), OfCalls(calls, plan.queries[i].queryId))
         && (items[i].Terminal() ==> forall call | call in calls && call.queryId == plan.queries[i].queryId :: Verifies(call.outcome))
  }

  lemma PlusNothing(a: Tally)
    ensures Plus(a, NOTHING) == a && Plus(NOTHING, a) == a
  {
  }

  lemma RunTalliedStep(plan: Plan, resume: Option<Progress>, items: seq<QueryProgress>, calls: seq<VerifyCall>, r: QueryProgress,
                       added: seq<VerifyCall>)
    requires plan.Valid() && Resumable(plan, resume) && |items| < |plan.queries|
    requires RunTallied(plan, resume, items, calls)
    requires var base := Before(plan, resume, |items|);
             && AllOf(added, base.queryId)
             && OfRecord(r) == Plus(OfRecord(base), OfCalls(added, base.queryId))
             && (r.Terminal() ==> AllVerified(added))
    ensures RunTallied(plan, resume, items + [r], calls + added)
  {
    hide Good;
    hide Verifies;
    hide OfRecord;
    hide Plus;
    hide OfCalls;
    var n := |items|;
    forall i | 0 <= i <= n
      ensures OfRecord((items + [r])[i]) == Plus(OfRecord(Before(plan, resume, i)), OfCalls(calls + added, plan.queries[i].queryId))
    {
      var id := plan.queries[i].queryId;
      OfCallsConcat(calls, added, id);
      PlusNothing(OfCalls(calls, id));
      PlusNothing(OfCalls(added, id));
      if i < n {
        OfOthers(added, id);
      } else {
        OfOthers(calls, id);
      }
    }
    forall call | call in calls + added
      ensures exists i | 0 <= i < n + 1 :: call.queryId == plan.queries[i].queryId
    {
      if call in added {
        assert call.queryId == plan.queries[n].queryId;
      }
    }
  }

  lemma {:induction false} RunTally(plan: Plan, p: Providers, resume: Option<Progress>, n: nat)
    requires plan.Valid() && Resumable(plan, resume) && n <= |plan.queries|
    ensures |AskFirst(plan, p, resume, n).items| == n
    ensures RunTallied(plan, resume, AskFirst(plan, p, resume, n).items, AskFirst(plan, p, resume, n).shared.calls)
  {
    hide Good;
    hide AskFirst;
    hide AskQuery;
    hide OfRecord;
    hide OfCalls;
    hide Verifies;
    RunRecords(plan, p, resume, n);
    FirstQuery(plan, p, resume);
    if n > 0 {
      RunTally(plan, p, resume, n - 1);
      var st := AskFirst(plan, p, resume, n - 1);
      PreviousIs(plan, resume);
      AskNext(plan, p, resume, n);
      hide Previous;
      hide Find;
      hide CounterRun.Recorded;
      var r, added := AskExtends(plan, p, Previous(resume), st, plan.queries[n - 1]);
      RunTalliedStep(plan, resume, st.items, st.shared.calls, r, added);
      hide RunTallied;
    }
  }

  // ----- Whole histories ----------------------------------------------------------------

  /** The verification calls of all runs, in order. */
  ghost function AllCalls(plan: Plan, runs: seq<Providers>): seq<VerifyCall> {
    if runs == [] then [] else AllCalls(plan, runs[..|runs| - 1]) + LastRun(plan, runs).calls
  }

  lemma ExecutedTally(plan: Plan, p: Providers, resume: Option<Progress>, i: nat)
    requires plan.Valid() && Resumable(plan, resume) && i < |plan.queries|
    ensures var run := Execute(plan, p, resume);
            && |run.result.progress.queries| == |plan.queries|
            && RunTallied(plan, resume, run.result.progress.queries, run.calls)
            && OfRecord(run.result.progress.queries[i])
               == Plus(OfRecord(Before(plan, resume, i)), OfCalls(run.calls, plan.queries[i].queryId))
  {
    hide Good;
    hide AskFirst;
    hide OfRecord;
    hide OfCalls;
    hide Verifies;
    hide Plus;
    hide Decide;
    hide FinalReasons;
    hide NextOrdinal;
    hide Previous;
    RunTally(plan, p, resume, |plan.queries|);
  }

  lemma EmptyTally(queryId: string)
    ensures OfRecord(Empty(queryId)) == NOTHING && OfCalls([], queryId) == NOTHING
  {
  }

  lemma {:induction false} HistoryTally(plan: Plan, runs: seq<Providers>, i: nat)
    requires plan.Valid() && runs != [] && i < |plan.queries|
    ensures |Records(plan, runs)| == |plan.queries|
    ensures OfRecord(Records(plan, runs)[i]) == OfCalls(AllCalls(plan, runs), plan.queries[i].queryId)
  {
    hide Good;
    hide Execute;
    hide RunTallied;
    hide OfRecord;
    hide OfCalls;
    hide Plus;
    var rest, p, id := runs[..|runs| - 1], runs[|runs| - 1], plan.queries[i].queryId;
    HistoryResumable(plan, rest);
    ExecutedTally(plan, p, Resume(plan, rest), i);
    OfCallsConcat(AllCalls(plan, rest), LastRun(plan, runs).calls, id);
    if rest != [] {
      HistoryTally(plan, rest, i);
    } else {
      EmptyTally(id);
    }
  }

  // ----- In terms of single calls -------------------------------------------------------

  /** Some call for the query verified its candidate and gave this source. */
  ghost predicate GaveSource(calls: seq<VerifyCall>, queryId: string, sourceId: string) {
    exists call | call in calls :: call.queryId == queryId && Verifies(call.outcome) && call.outcome.verification.source.value.sourceId == sourceId
  }

  ghost predicate GaveEvidence(calls: seq<VerifyCall>, queryId: string, evidenceId: string) {
    exists call, e | call in calls && Verifies(call.outcome) && e in call.outcome.verification.evidence ::
      call.queryId == queryId && e.eligible && e.evidenceId == evidenceId
  }

  ghost predicate GaveCandidate(calls: seq<VerifyCall>, queryId: string, candidateId: string) {
    exists call | call in calls :: call.queryId == queryId && Verifies(call.outcome) && call.candidate.candidateId == candidateId
  }

  ghost predicate GaveKey(calls: seq<VerifyCall>, queryId: string, key: string) {
    exists call | call in calls :: call.queryId == queryId && Verifies(call.outcome) && call.key == key
  }

  /** How many calls for the query consumed budget. */
  function ChargedFor(calls: seq<VerifyCall>, queryId: string): nat {
    if calls == [] then 0
    else
      var last := calls[|calls| - 1];
      ChargedFor(calls[..|calls| - 1], queryId) + Count(last.queryId == queryId && last.charged)
  }

  lemma {:induction false} TallyGives(calls: seq<VerifyCall>, queryId: string)
    ensures forall id :: id in OfCalls(calls, queryId).sources <==> GaveSource(calls, queryId, id)
    ensures forall id :: id in OfCalls(calls, queryId).ids <==> GaveCandidate(calls, queryId, id)
    ensures forall key :: key in OfCalls(calls, queryId).keys <==> GaveKey(calls, queryId, key)
    ensures OfCalls(calls, queryId).charged == ChargedFor(calls, queryId)
  {
    hide Verifies;
    if calls != [] {
      var rest, last := calls[..|calls| - 1], calls[|calls| - 1];
      TallyGives(rest, queryId);
      assert calls == rest + [last];
    }
  }

  lemma {:induction false} TallyGivesEvidence(calls: seq<VerifyCall>, queryId: string)
    ensures forall id :: id in OfCalls(calls, queryId).evidence <==> GaveEvidence(calls, queryId, id)
  {
    hide Verifies;
    if calls != [] {
      var rest, last := calls[..|calls| - 1], calls[|calls| - 1];
      TallyGivesEvidence(rest, queryId);
      assert calls == rest + [last];
    }
  }

  /** After any history the record of a query lists exactly the candidates, keys, sources and eligible
      spans of the calls for it that verified, in any run, and counts exactly the calls charged. */
  lemma RecordsAreTheirCalls(plan: Plan, runs: seq<Providers>, i: nat)
    requires plan.Valid() && runs != [] && i < |plan.queries|
    ensures |Records(plan, runs)| == |plan.queries|
    ensures var r, calls, queryId := Records(plan, runs)[i], AllCalls(plan, runs), plan.queries[i].queryId;
            && (forall id :: id in r.verifiedIds <==> GaveCandidate(calls, queryId, id))
            && (forall key :: key in r.verifiedKeys <==> GaveKey(calls, queryId, key))
            && (forall id :: id in r.sourceIds <==> GaveSource(calls, queryId, id))
            && (forall id :: id in r.evidenceIds <==> GaveEvidence(calls, queryId, id))
            && r.attemptCount == ChargedFor(calls, queryId)
  {
    HistoryTally(plan, runs, i);
    hide Records;
    TallyGives(AllCalls(plan, runs), plan.queries[i].queryId);
    TallyGivesEvidence(AllCalls(plan, runs), plan.queries[i].queryId);
    hide OfCalls;
    hide GaveCandidate;
    hide GaveKey;
    hide GaveSource;
    hide GaveEvidence;
    hide AllCalls;
    assert OfRecord(Records(plan, runs)[i]).ids == Elems(Records(plan, runs)[i].verifiedIds);
  }

  /** A query ends in a run only when every call made for it in that run verified; a single answer that
      does not, for want of trust, hash, time stamp or an eligible span, leaves it unfinished. */
  lemma UnverifiedLeavesOpen(plan: Plan, runs: seq<Providers>, i: nat, call: VerifyCall)
    requires plan.Valid() && runs != [] && i < |plan.queries|
    requires call in LastRun(plan, runs).calls && call.queryId == plan.queries[i].queryId && !Verifies(call.outcome)
    ensures |Records(plan, runs)| == |plan.queries| && !Records(plan, runs)[i].Terminal()
  {
    hide Execute;
    hide Good;
    hide Verifies;
    hide OfRecord;
    hide OfCalls;
    hide Plus;
    var rest := runs[..|runs| - 1];
    HistoryResumable(plan, rest);
    ExecutedTally(plan, runs[|runs| - 1], Resume(plan, rest), i);
  }

  // ----- Keys ---------------------------------------------------------------------------

  ghost function TextOf(s: Option<string>): string {
    if s == None then "" else s.value
  }

  /** The names of a candidate, the most reliable first. */
  ghost function Names(c: Candidate): seq<string> {
    [TextOf(if c.identity == None then None else c.identity.value.canonicalJid),
     TextOf(if c.identity == None then None else c.identity.value.documentId),
     TextOf(c.officialIdentifier), TextOf(c.officialUrl), c.candidateId]
  }

  /** A candidate is known by the first of its names that is not empty, folded. */
  lemma KeyIsFirstName(fold: string -> string, c: Candidate, k: nat)
    requires k < |Names(c)| && Names(c)[k] != "" && forall j | 0 <= j < k :: Names(c)[j] == ""
    ensures CandidateKey(fold, c) == fold(Names(c)[k])
  {
    var names := Names(c);
    assert k == 0 || names[0] == "";
    assert k <= 1 || names[1] == "";
    assert k <= 2 || names[2] == "";
    assert k <= 3 || names[3] == "";
  }

  lemma NamelessKey(fold: string -> string, c: Candidate)
    requires forall name | name in Names(c) :: name == ""
    ensures CandidateKey(fold, c) == ""
  {
    var names := Names(c);
    assert names[0] in names && names[1] in names && names[2] in names && names[3] in names && names[4] in names;
  }

  // ----- The calls are the providers' answers ---------------------------------------------

  /** Within its first candidates, some search for the query returned this one. */
  ghost predicate Returned(plan: Plan, searches: seq<SearchCall>, queryId: string, c: Candidate) {
    exists s, j | s in searches && s.outcome.Answered? && 0 <= j < |s.outcome.result.candidates| ::
      s.queryId == queryId && j < plan.scope.maxCandidates && s.outcome.result.candidates[j] == c
  }

  /** The call consumed budget unless the cost hook said that it need not. */
  ghost predicate Costed(p: Providers, call: VerifyCall) {
    exists j: nat :: call.charged <==> p.cost(j, call.candidate) != Consumes(false)
  }

  /** Call i is the provider's i-th answer of the run, for a candidate of the query. */
  ghost predicate Answers(plan: Plan, p: Providers, searches: seq<SearchCall>, i: nat, call: VerifyCall) {
    && call.outcome == p.verify(i, call.candidate)
    && call.key == CandidateKey(p.fold, call.candidate)
    && Costed(p, call)
    && Returned(plan, searches, call.queryId, call.candidate)
  }

  ghost predicate AllAnswers(plan: Plan, p: Providers, searches: seq<SearchCall>, from: nat, calls: seq<VerifyCall>) {
    forall i | from <= i < |calls| :: Answers(plan, p, searches, i, calls[i])
  }

  lemma ExamineAdds(plan: Plan, p: Providers, queryId: string, w: Work, c: Candidate)
    ensures var t := Examine(plan, p, queryId, w, c);
            || t.shared.calls == w.shared.calls
            || (exists call :: t.shared.calls == w.shared.calls + [call]
                  && call == VerifyCall(queryId, c, CandidateKey(p.fold, c), call.charged, p.verify(|w.shared.calls|, c))
                  && Costed(p, call))
  {
    hide CandidateKey;
    var key, cost := CandidateKey(p.fold, c), p.cost(w.shared.costCalls, c);
    var call := VerifyCall(queryId, c, key, Charges(cost), p.verify(|w.shared.calls|, c));
    assert call.charged <==> p.cost(w.shared.costCalls, c) != Consumes(false);
    SettledTally(Called(Listed(w, c, cost), call), c, key, call);
    CalledTally(w, c, cost, call);
    hide Settled;
    hide Called;
    hide OfWork;
  }

  lemma ExamineAnswers(plan: Plan, p: Providers, queryId: string, w: Work, c: Candidate, searches: seq<SearchCall>, from: nat)
    requires Returned(plan, searches, queryId, c)
    requires from <= |w.shared.calls| && AllAnswers(plan, p, searches, from, w.shared.calls)
    ensures var t := Examine(plan, p, queryId, w, c);
            w.shared.calls <= t.shared.calls && AllAnswers(plan, p, searches, from, t.shared.calls)
  {
    ExamineAdds(plan, p, queryId, w, c);
    hide Examine;
    hide CandidateKey;
    hide Returned;
  }

  lemma {:induction false} ExamineFirstAnswers(plan: Plan, p: Providers, queryId: string, s: Shared, cs: seq<Candidate>, n: nat,
                                               searches: seq<SearchCall>)
    requires n <= |cs| && forall c | c in cs :: Returned(plan, searches, queryId, c)
    ensures var t := ExamineFirst(plan, p, queryId, Fresh(s), cs, n);
            s.calls <= t.shared.calls && AllAnswers(plan, p, searches, |s.calls|, t.shared.calls)
  {
    hide Examine;
    hide Returned;
    hide Answers;
    if n > 0 {
      ExamineFirstAnswers(plan, p, queryId, s, cs, n - 1, searches);
      ExamineAnswers(plan, p, queryId, ExamineFirst(plan, p, queryId, Fresh(s), cs, n - 1), cs[n - 1], searches, |s.calls|);
    }
  }

  lemma LimitedAreReturned(plan: Plan, q: Query, outcome: SearchOutcome, searches: seq<SearchCall>)
    requires SearchCall(q.queryId, outcome) in searches
    ensures forall c | c in Limited(plan, AsResult(outcome)) :: Returned(plan, searches, q.queryId, c)
  {
    var s := SearchCall(q.queryId, outcome);
    forall c | c in Limited(plan, AsResult(outcome))
      ensures Returned(plan, searches, q.queryId, c)
    {
      var j :| 0 <= j < |Limited(plan, AsResult(outcome))| && Limited(plan, AsResult(outcome))[j] == c;
      assert s.outcome.result.candidates[j] == c;
    }
  }

  lemma MoreSearches(plan: Plan, p: Providers, a: seq<SearchCall>, b: seq<SearchCall>, calls: seq<VerifyCall>)
    requires a <= b && AllAnswers(plan, p, a, 0, calls)
    ensures AllAnswers(plan, p, b, 0, calls)
  {
    hide CandidateKey;
    assert forall s | s in a :: s in b;
    forall i | 0 <= i < |calls|
      ensures Answers(plan, p, b, i, calls[i])
    {
      assert Answers(plan, p, a, i, calls[i]);
    }
  }

  lemma AskAnswers(plan: Plan, p: Providers, previous: seq<QueryProgress>, st: RunState, q: Query)
    requires AllAnswers(plan, p, st.searches, 0, st.shared.calls)
    ensures var t := AskQuery(plan, p, previous, st, q); AllAnswers(plan, p, t.searches, 0, t.shared.calls)
  {
    var prior := Find(previous, q.queryId);
    hide Find;
    hide Answers;
    if !(prior.Some? && prior.value.Terminal()) {
      var outcome := p.search(|st.searches|, q.text, plan.scope.maxCandidates);
      var searches := st.searches + [SearchCall(q.queryId, outcome)];
      MoreSearches(plan, p, st.searches, searches, st.shared.calls);
      if !AsResult(outcome).status.ProviderError? {
        var cs := Limited(plan, AsResult(outcome));
        LimitedAreReturned(plan, q, outcome, searches);
        ExamineFirstAnswers(plan, p, q.queryId, Entered(st.shared, outcome), cs, |cs|, searches);
        hide Returned;
        hide Examine;
        hide SearchRecord;
        hide SearchReasons;
      }
    }
  }

  lemma {:induction false} RunAnswers(plan: Plan, p: Providers, resume: Option<Progress>, n: nat)
    requires n <= |plan.queries|
    ensures var st := AskFirst(plan, p, resume, n); AllAnswers(plan, p, st.searches, 0, st.shared.calls)
  {
    hide AskQuery;
    hide Answers;
    hide Previous;
    if n > 0 {
      RunAnswers(plan, p, resume, n - 1);
      AskAnswers(plan, p, Previous(resume), AskFirst(plan, p, resume, n - 1), plan.queries[n - 1]);
    }
  }

  /** The calls of a run are its provider's answers one after the other, each for a candidate that a
      search of the run returned for the query within the limit. */
  lemma CallsAreAnswers(plan: Plan, runs: seq<Providers>, k: nat, i: nat)
    requires k < |runs| && i < |RunAt(plan, runs, k).calls|
    ensures var run := RunAt(plan, runs, k);
            Answers(plan, runs[k], run.searches, i, run.calls[i])
  {
    var first := runs[..k + 1];
    RunAnswers(plan, runs[k], Resume(plan, first[..k]), |plan.queries|);
    assert first[k] == runs[k];
    hide AskFirst;
    hide Answers;
    hide Finish;
  }

  lemma {:induction false} ReportedAreRecorded(records: seq<QueryProgress>)
    ensures forall id :: id in PriorSources(records) <==> exists r :: r in records && id in r.sourceIds
    ensures forall id :: id in PriorEvidence(records) <==> exists r :: r in records && id in r.evidenceIds
  {
    if records != [] {
      var rest, last := records[..|records| - 1], records[|records| - 1];
      ReportedAreRecorded(rest);
      assert records == rest + [last];
    }
  }

  /** A run reports a source id exactly when some verified call of the history, for one of the plan's
      queries, gave that source. */
  lemma ReportedAreGiven(plan: Plan, runs: seq<Providers>, id: string)
    requires plan.Valid() && runs != []
    ensures id in LastRun(plan, runs).result.verifiedSourceIds <==>
              exists i | 0 <= i < |plan.queries| :: GaveSource(AllCalls(plan, runs), plan.queries[i].queryId, id)
    ensures id in LastRun(plan, runs).result.verifiedEvidenceIds <==>
              exists i | 0 <= i < |plan.queries| :: GaveEvidence(AllCalls(plan, runs), plan.queries[i].queryId, id)
  {
    ReportedAreOnRecords(plan, runs);
    RecordCount(plan, runs);
    hide LastRun;
    hide Records;
    hide AllCalls;
    hide GaveSource;
    hide GaveEvidence;
    hide GaveCandidate;
    hide GaveKey;
    hide PriorSources;
    hide PriorEvidence;
    forall i | 0 <= i < |plan.queries|
      ensures RecordGives(Records(plan, runs)[i], AllCalls(plan, runs), plan.queries[i].queryId, id)
    {
      RecordsAreTheirCalls(plan, runs, i);
    }
    hide RecordGives;
    GivenBySome(plan, Records(plan, runs), AllCalls(plan, runs), id);
  }

  lemma ReportedAreOnRecords(plan: Plan, runs: seq<Providers>)
    requires plan.Valid() && runs != []
    ensures LastRun(plan, runs).result.verifiedSourceIds == PriorSources(Records(plan, runs))
    ensures LastRun(plan, runs).result.verifiedEvidenceIds == PriorEvidence(Records(plan, runs))
  {
    var rest := runs[..|runs| - 1];
    HistoryResumable(plan, rest);
    ResultSources(plan, runs[|runs| - 1], Resume(plan, rest));
    hide Execute;
    hide Good;
    hide PriorSources;
    hide PriorEvidence;
  }

  ghost predicate RecordGives(r: QueryProgress, calls: seq<VerifyCall>, queryId: string, id: string) {
    && (id in r.sourceIds <==> GaveSource(calls, queryId, id))
    && (id in r.evidenceIds <==> GaveEvidence(calls, queryId, id))
  }

  lemma GivenBySome(plan: Plan, records: seq<QueryProgress>, calls: seq<VerifyCall>, id: string)
    requires |records| == |plan.queries|
    requires forall i | 0 <= i < |plan.queries| :: RecordGives(records[i], calls, plan.queries[i].queryId, id)
    ensures id in PriorSources(records) <==> exists i | 0 <= i < |plan.queries| :: GaveSource(calls, plan.queries[i].queryId, id)
    ensures id in PriorEvidence(records) <==> exists i | 0 <= i < |plan.queries| :: GaveEvidence(calls, plan.queries[i].queryId, id)
  {
    ReportedAreRecorded(records);
    hide GaveSource;
    hide GaveEvidence;
    hide PriorSources;
    hide PriorEvidence;
    if i :| 0 <= i < |plan.queries| && GaveSource(calls, plan.queries[i].queryId, id) {
      assert RecordGives(records[i], calls, plan.queries[i].queryId, id) && records[i] in records;
    }
    if i :| 0 <= i < |plan.queries| && GaveEvidence(calls, plan.queries[i].queryId, id) {
      assert RecordGives(records[i], calls, plan.queries[i].queryId, id) && records[i] in records;
    }
    forall r | r in records && (id in r.sourceIds || id in r.evidenceIds)
      ensures exists i | 0 <= i < |records| :: records[i] == r && RecordGives(records[i], calls, plan.queries[i].queryId, id)
    {
      var i :| 0 <= i < |records| && records[i] == r;
      assert RecordGives(records[i], calls, plan.queries[i].queryId, id);
    }
  }

  lemma RecordCount(plan: Plan, runs: seq<Providers>)
    requires plan.Valid() && runs != []
    ensures |Records(plan, runs)| == |plan.queries|
  {
    HistoryTally(plan, runs, 0);
  }
}
