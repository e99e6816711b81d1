/** What one candidate, one query and one run of the counter-authority search keep. */
module CounterStep {
  import opened Collections
  import opened CounterAuthority

  /** The answer verifies its candidate: found, with a trusted, hashed and time-stamped source and at
      least one eligible span. */
  ghost predicate Verifies(outcome: VerifyOutcome) {
    && outcome.Checked?
    && var v := outcome.verification;
    && v.status == ProviderFound
    && v.source.Some? && v.source.value.trusted && v.source.value.hashed && v.source.value.verifiedAt != None
    && exists e | e in v.evidence :: e.eligible
  }

  /** How many verification calls consumed budget. */
  function Charged(calls: seq<VerifyCall>): nat {
    if calls == [] then 0 else Charged(calls[..|calls| - 1]) + Count(calls[|calls| - 1].charged)
  }

  /** From s to t the run only adds: every new call has a fresh key that is then marked as
      seen, attempts grow by what is charged, and only while the budget lasts. */
  ghost predicate Advances(budget: nat, s: Shared, t: Shared) {
    && s.calls <= t.calls
    && t.attempts - s.attempts == Charged(t.calls) - Charged(s.calls)
    && s.attempts <= t.attempts
    && (t.attempts == s.attempts || t.attempts <= budget)
    && s.seen <= t.seen
    && (s.exhausted ==> t.exhausted)
    && s.failures <= t.failures
    && (forall i | |s.calls| <= i < |t.calls| :: t.calls[i].key in t.seen && t.calls[i].key !in s.seen)
    && (forall i, j | |s.calls| <= i < j < |t.calls| :: t.calls[i].key != t.calls[j].key)
  }

  lemma AdvancesTransitive(budget: nat, s: Shared, t: Shared, u: Shared)
    requires Advances(budget, s, t) && Advances(budget, t, u)
    ensures Advances(budget, s, u)
  {
  }

  /** Failures and verifications may grow beside it. */
  lemma AdvancesBeside(budget: nat, s: Shared, t: Shared, u: Shared)
    requires Advances(budget, s, t)
    requires u.calls == t.calls && u.attempts == t.attempts && u.seen == t.seen
    requires (t.exhausted ==> u.exhausted) && t.failures <= u.failures
    ensures Advances(budget, s, u)
  {
  }

  // ----- Candidates ---------------------------------------------------------------------

  /** The lists of a query's work agree with each other, whatever the providers answered. */
  ghost predicate Books(s: Shared, w: Work) {
    && |w.verifiedIds| == |w.sources| == |w.verifiedKeys|
    && (w.verifiedIds == [] ==> w.evidence == [])
    && Elems(w.verifiedIds) <= Elems(w.candidateIds)
    && (!w.failed ==> w.verifiedIds == w.candidateIds && w.shared.failures == s.failures)
    && (w.stopped ==> w.failed)
    && SourcesOf(w.shared.verifications) == SourcesOf(s.verifications) + Elems(w.sources)
    && EvidenceOf(w.shared.verifications) == EvidenceOf(s.verifications) + Elems(w.evidence)
  }

  ghost predicate Sound(budget: nat, s: Shared, w: Work) {
    && Advances(budget, s, w.shared)
    && w.shared.attempts == s.attempts + w.charged
    && Books(s, w)
    && (w.candidateIds == [] ==> w == Fresh(s))
  }

  /** Between listing candidate c and settling it: w is the work before c, w1 the work now. */
  ghost predicate Midway(budget: nat, s: Shared, w: Work, w1: Work, c: Candidate) {
    && Advances(budget, s, w1.shared)
    && Books(s, w)
    && w1.shared.attempts == s.attempts + w1.charged
    && w1.candidateIds == w.candidateIds + [c.candidateId]
    && w1.verifiedIds == w.verifiedIds && w1.verifiedKeys == w.verifiedKeys
    && w1.sources == w.sources && w1.evidence == w.evidence
    && w1.shared.failures == w.shared.failures && w1.shared.verifications == w.shared.verifications
    && !w.stopped && !w1.stopped && (w.failed ==> w1.failed)
  }

  lemma ListedKeeps(budget: nat, s: Shared, w: Work, c: Candidate, cost: CostOutcome)
    requires Sound(budget, s, w) && !w.stopped
    ensures Midway(budget, s, w, Listed(w, c, cost), c)
    ensures Listed(w, c, cost).shared.seen == w.shared.seen
    ensures Listed(w, c, cost).shared.calls == w.shared.calls
    ensures Listed(w, c, cost).shared.attempts == w.shared.attempts
  {
    hide Books;
    AdvancesBeside(budget, s, w.shared, Listed(w, c, cost).shared);
  }

  lemma OutOfBudgetKeeps(budget: nat, s: Shared, w: Work, w1: Work, c: Candidate)
    requires Midway(budget, s, w, w1, c)
    ensures Sound(budget, s, OutOfBudget(w1))
  {
    ElemsAppend(w.candidateIds, c.candidateId);
    AdvancesBeside(budget, s, w1.shared, OutOfBudget(w1).shared);
    hide Advances;
  }

  /** Charging a fresh key while the budget lasts. */
  lemma ChargeAdvances(budget: nat, s: Shared, w: Work, call: VerifyCall)
    requires Advances(budget, s, w.shared)
    requires call.key !in w.shared.seen
    requires call.charged ==> w.shared.attempts < budget
    ensures Advances(budget, s, Called(w, call).shared)
  {
    var calls := Called(w, call).shared.calls;
    assert calls[..|calls| - 1] == w.shared.calls;
  }

  lemma CalledKeeps(budget: nat, s: Shared, w: Work, w1: Work, c: Candidate, call: VerifyCall)
    requires Midway(budget, s, w, w1, c)
    requires call.key !in w1.shared.seen
    requires call.charged ==> w1.shared.attempts < budget
    ensures Midway(budget, s, w, Called(w1, call), c)
  {
    ChargeAdvances(budget, s, w1, call);
    hide Advances;
    hide Books;
  }

  lemma RefusalKeeps(budget: nat, s: Shared, w: Work, w2: Work, c: Candidate, key: string, outcome: VerifyOutcome)
    requires Midway(budget, s, w, w2, c)
    requires outcome.Checked? ==> !outcome.verification.Eligible()
    ensures Sound(budget, s, Settled(w2, c, key, outcome))
  {
    ElemsAppend(w.candidateIds, c.candidateId);
    AdvancesBeside(budget, s, w2.shared, Settled(w2, c, key, outcome).shared);
    hide Advances;
  }

  lemma VerifiedKeeps(budget: nat, s: Shared, w: Work, w2: Work, c: Candidate, key: string, v: Verification)
    requires Midway(budget, s, w, w2, c)
    requires v.Eligible()
    ensures Sound(budget, s, Settled(w2, c, key, Checked(v)))
  {
    ElemsAppend(w.candidateIds, c.candidateId);
    ElemsAppend(w.verifiedIds, c.candidateId);
    var vs := w2.shared.verifications + [v];
    assert vs[..|vs| - 1] == w.shared.verifications;
    ElemsAppend(w.sources, v.source.value.sourceId);
    ElemsConcat(w.evidence, EligibleIds(v.evidence));
    AdvancesBeside(budget, s, w2.shared, Settled(w2, c, key, Checked(v)).shared);
    hide Advances;
    hide Elems;
  }

  lemma SettledKeeps(budget: nat, s: Shared, w: Work, w2: Work, c: Candidate, key: string, outcome: VerifyOutcome)
    requires Midway(budget, s, w, w2, c)
    ensures Sound(budget, s, Settled(w2, c, key, outcome))
  {
    hide Midway;
    hide Sound;
    hide Settled;
    if outcome.Checked? && outcome.verification.Eligible() {
      VerifiedKeeps(budget, s, w, w2, c, key, outcome.verification);
    } else {
      RefusalKeeps(budget, s, w, w2, c, key, outcome);
    }
  }

  lemma ExamineKeeps(plan: Plan, p: Providers, queryId: string, s: Shared, w: Work, c: Candidate)
    requires Sound(plan.scope.maxVerifications, s, w)
    ensures Sound(plan.scope.maxVerifications, s, Examine(plan, p, queryId, w, c))
  {
    hide Sound;
    hide Midway;
    hide Listed;
    hide Called;
    hide Settled;
    hide OutOfBudget;
    var budget := plan.scope.maxVerifications;
    var key := CandidateKey(p.fold, c);
    if !w.stopped && key !in w.shared.seen {
      var cost := p.cost(w.shared.costCalls, c);
      var w1 := Listed(w, c, cost);
      ListedKeeps(budget, s, w, c, cost);
      if Charges(cost) && w1.shared.attempts >= budget {
        OutOfBudgetKeeps(budget, s, w, w1, c);
      } else {
        var outcome := p.verify(|w.shared.calls|, c);
        var call := VerifyCall(queryId, c, key, Charges(cost), outcome);
        CalledKeeps(budget, s, w, w1, c, call);
        SettledKeeps(budget, s, w, Called(w1, call), c, key, outcome);
      }
    }
  }

  lemma {:induction false} ExamineFirstKeeps(plan: Plan, p: Providers, queryId: string, s: Shared, cs: seq<Candidate>, n: nat)
    requires n <= |cs|
    ensures Sound(plan.scope.maxVerifications, s, ExamineFirst(plan, p, queryId, Fresh(s), cs, n))
  {
    hide Examine;
    if n > 0 {
      ExamineFirstKeeps(plan, p, queryId, s, cs, n - 1);
      ExamineKeeps(plan, p, queryId, s, ExamineFirst(plan, p, queryId, Fresh(s), cs, n - 1), cs[n - 1]);
    }
  }

  lemma SettledLists(w: Work, c: Candidate, key: string, outcome: VerifyOutcome)
    ensures Settled(w, c, key, outcome).candidateIds == w.candidateIds
  {
  }

  /** The list of examined candidates never shrinks, and a fresh key always joins it. */
  lemma ExamineLists(plan: Plan, p: Providers, queryId: string, w: Work, c: Candidate)
    ensures w.candidateIds <= Examine(plan, p, queryId, w, c).candidateIds
    ensures !w.stopped && w.shared.seen == {} ==> Examine(plan, p, queryId, w, c).candidateIds != []
  {
    hide Settled;
    var key := CandidateKey(p.fold, c);
    var cost := p.cost(w.shared.costCalls, c);
    var outcome := p.verify(|w.shared.calls|, c);
    SettledLists(Called(Listed(w, c, cost), VerifyCall(queryId, c, key, Charges(cost), outcome)), c, key, outcome);
  }

  /** With nothing seen before, the first candidate a search returns is always listed. */
  lemma {:induction false} FirstIsListed(plan: Plan, p: Providers, queryId: string, s: Shared, cs: seq<Candidate>, n: nat)
    requires s.seen == {} && 0 < n <= |cs|
    ensures ExamineFirst(plan, p, queryId, Fresh(s), cs, n).candidateIds != []
  {
    hide Examine;
    var before := ExamineFirst(plan, p, queryId, Fresh(s), cs, n - 1);
    if n > 1 {
      FirstIsListed(plan, p, queryId, s, cs, n - 1);
    }
    ExamineLists(plan, p, queryId, before, cs[n - 1]);
  }

  // ----- Records ------------------------------------------------------------------------

  /** What every record the executor writes satisfies. A terminal record has verified each of
      its candidates, and a record with nothing counted has nothing else either. */
  ghost predicate Good(r: QueryProgress) {
    && !r.status.Pending?
    && (r.Terminal() ==> Elems(r.candidateIds) <= Elems(r.verifiedIds))
    && Elems(r.verifiedIds) <= Elems(r.candidateIds)
    && |r.candidateIds| <= r.candidateCount
    && (r.verifiedIds == [] <==> r.sourceIds == [])
    && (r.verifiedIds == [] ==> r.verifiedKeys == [] && r.evidenceIds == [])
    && (r.attemptCount > 0 ==> r.candidateCount > 0)
    && r.verifiedCount == |r.sourceIds|
  }

  /** Nothing recorded is lost, and a terminal record does not change at all. */
  ghost predicate Grows(a: QueryProgress, b: QueryProgress) {
    && a.queryId == b.queryId
    && (a.Terminal() ==> b == a)
    && a.candidateCount <= b.candidateCount && a.attemptCount <= b.attemptCount
    && Elems(a.candidateIds) <= Elems(b.candidateIds)
    && Elems(a.verifiedIds) <= Elems(b.verifiedIds)
    && Elems(a.verifiedKeys) <= Elems(b.verifiedKeys)
    && Elems(a.sourceIds) <= Elems(b.sourceIds)
    && Elems(a.evidenceIds) <= Elems(b.evidenceIds)
  }

  /** A record that still carries a candidate nobody has verified. */
  predicate Open(r: QueryProgress) {
    !r.Terminal() && r.candidateCount > 0
  }

  predicate ReturnsCandidates(outcome: SearchOutcome) {
    outcome.Answered? && !outcome.result.status.ProviderError? && outcome.result.candidates != []
  }

  lemma Merged<T>(a: seq<T>, b: seq<T>)
    ensures Elems(Dedupe(a + b)) == Elems(a) + Elems(b)
    ensures Dedupe(a + b) == [] <==> a == [] && b == []
  {
    DedupeKeeps(a + b);
    DedupeEmpty(a + b);
    ElemsConcat(a, b);
  }

  lemma ErrorRecordKeeps(prior: Option<QueryProgress>, q: Query, result: ProviderResult)
    requires prior.Some? ==> Good(prior.value) && !prior.value.Terminal() && prior.value.queryId == q.queryId
    ensures Good(ErrorRecord(prior, q, result)) && !ErrorRecord(prior, q, result).Terminal()
    ensures Grows(Base(prior, q.queryId), ErrorRecord(prior, q, result))
  {
    hide Elems;
    hide ErrorReasons;
    assert Elems<string>([]) <= Elems<string>([]);
  }

  /** A query ends clean only when every candidate ever recorded for it has been verified. */
  lemma CleanEndIsVerified(prior: Option<QueryProgress>, queryId: string, result: ProviderResult, w: Work)
    requires prior.Some? ==> Good(prior.value) && !prior.value.Terminal()
    requires !Incomplete(prior, result, w)
    requires !w.failed ==> w.verifiedIds == w.candidateIds
    ensures var base := Base(prior, queryId);
            Elems(base.candidateIds) + Elems(w.candidateIds) <= Elems(base.verifiedIds) + Elems(w.verifiedIds)
  {
    var base := Base(prior, queryId);
    forall x | x in Elems(base.candidateIds) && x !in Elems(base.verifiedIds)
      ensures x in Elems(w.verifiedIds)
    {
      assert x in Elems(base.candidateIds) - Elems(base.verifiedIds);
      assert x in PriorUnresolvedIds(prior);
      assert PriorUnresolved(prior);
      assert x !in PriorUnresolvedIds(prior) - Elems(w.verifiedIds);
    }
  }

  lemma SearchRecordKeeps(plan: Plan, prior: Option<QueryProgress>, q: Query, result: ProviderResult, s: Shared, w: Work)
    requires prior.Some? ==> Good(prior.value) && !prior.value.Terminal() && prior.value.queryId == q.queryId
    requires Sound(plan.scope.maxVerifications, s, w)
    ensures Good(SearchRecord(plan, prior, q, result, w))
    ensures Grows(Base(prior, q.queryId), SearchRecord(plan, prior, q, result, w))
  {
    hide SearchReasons;
    hide Dedupe;
    hide Advances;
    hide Limited;
    hide PriorUnresolved;
    hide PriorUnresolvedIds;
    hide UnresolvedAfter;
    hide SourcesOf;
    hide EvidenceOf;
    var base := Base(prior, q.queryId);
    Merged(base.candidateIds, w.candidateIds);
    Merged(base.verifiedIds, w.verifiedIds);
    Merged(base.verifiedKeys, w.verifiedKeys);
    Merged(base.sourceIds, w.sources);
    Merged(base.evidenceIds, w.evidence);
    if !Incomplete(prior, result, w) {
      CleanEndIsVerified(prior, q.queryId, result, w);
    }
    hide Elems;
    hide Incomplete;
  }

  /** While nothing is verified, an open record stays open. */
  lemma OpenStaysOpen(plan: Plan, prior: Option<QueryProgress>, q: Query, result: ProviderResult, w: Work)
    requires prior.Some? && Good(prior.value) && Open(prior.value)
    requires |w.verifiedIds| == |w.sources|
    requires SearchRecord(plan, prior, q, result, w).sourceIds == []
    ensures Open(SearchRecord(plan, prior, q, result, w))
  {
    var base := prior.value;
    Merged(base.sourceIds, w.sources);
    assert PriorUnresolved(prior);
    assert Elems(w.verifiedIds) == {};
    assert UnresolvedAfter(prior, w.verifiedIds);
    hide Dedupe;
    hide SearchReasons;
  }

  /** With nothing verified, a search that lists a candidate opens its record. */
  lemma HitOpens(plan: Plan, prior: Option<QueryProgress>, q: Query, result: ProviderResult, w: Work)
    requires |w.verifiedIds| == |w.sources| && w.candidateIds != []
    requires !w.failed ==> w.verifiedIds == w.candidateIds
    requires SearchRecord(plan, prior, q, result, w).sourceIds == []
    ensures Open(SearchRecord(plan, prior, q, result, w))
  {
    var base := Base(prior, q.queryId);
    Merged(base.sourceIds, w.sources);
    Merged(base.candidateIds, w.candidateIds);
    hide Limited;
    hide Elems;
    hide Dedupe;
    hide SearchReasons;
    assert w.failed;
  }

  // ----- Queries ------------------------------------------------------------------------

  /** The ids a run adds to a record are exactly the ids of its fresh verifications. */
  ghost predicate Accounts(base: seq<string>, before: set<string>, record: seq<string>, after: set<string>) {
    before <= after && after <= before + Elems(record) && Elems(record) <= Elems(base) + after
  }

  /** From st to t the query with prior record base is answered by record r. */
  ghost predicate Asked(plan: Plan, base: QueryProgress, st: RunState, t: RunState, r: QueryProgress) {
    && t.items == st.items + [r]
    && Good(r) && Grows(base, r)
    && Advances(plan.scope.maxVerifications, st.shared, t.shared)
    && t.shared.attempts - st.shared.attempts == r.attemptCount - base.attemptCount
    && t.completed == st.completed + Count(r.Terminal())
    && t.cleanMisses == st.cleanMisses + Count(r.status.NotFound?)
    && (r.Terminal() ==> t.shared.failures == st.shared.failures)
    && Accounts(base.sourceIds, SourcesOf(st.shared.verifications), r.sourceIds, SourcesOf(t.shared.verifications))
    && Accounts(base.evidenceIds, EvidenceOf(st.shared.verifications), r.evidenceIds, EvidenceOf(t.shared.verifications))
  }

  /** What the query's searches and verifications say about its record. */
  ghost predicate Traced(base: QueryProgress, st: RunState, t: RunState, r: QueryProgress) {
    && (t.searches == st.searches
        || (exists o :: t.searches == st.searches + [SearchCall(r.queryId, o)]
                        && (ReturnsCandidates(o) ==> r.candidateCount > 0)))
    && (t.shared.calls != st.shared.calls ==> r.candidateCount > 0)
    && (Open(base) && r.sourceIds == [] ==> Open(r))
    && (st.shared.seen == {} && r.sourceIds == [] ==>
          Open(r) || (t.shared.seen == {} && (r.candidateCount > 0 ==> base.candidateCount > 0)))
    && (t.shared.exhausted ==> st.shared.exhausted || r.candidateCount > 0)
    && (r.candidateCount > 0 && base.candidateCount == 0 ==>
          |t.searches| > |st.searches| && ReturnsCandidates(t.searches[|t.searches| - 1].outcome))
  }

  lemma AccountsNothing(base: seq<string>, before: set<string>)
    ensures Accounts(base, before, base, before)
  {
  }

  lemma AccountsMerge(base: seq<string>, before: set<string>, added: seq<string>)
    ensures Accounts(base, before, Dedupe(base + added), before + Elems(added))
  {
    Merged(base, added);
  }

  lemma KeptRecord(plan: Plan, st: RunState, r: QueryProgress, t: RunState)
    requires Good(r) && r.Terminal()
    requires t == st.(completed := st.completed + 1,
                      cleanMisses := st.cleanMisses + Count(r.status.NotFound?),
                      items := st.items + [r])
    ensures Asked(plan, r, st, t, r) && Traced(r, st, t, r)
  {
    AccountsNothing(r.sourceIds, SourcesOf(st.shared.verifications));
    AccountsNothing(r.evidenceIds, EvidenceOf(st.shared.verifications));
    hide Accounts;
  }

  lemma FailedSearch(plan: Plan, st: RunState, prior: Option<QueryProgress>, q: Query, outcome: SearchOutcome)
    requires prior.Some? ==> Good(prior.value) && !prior.value.Terminal() && prior.value.queryId == q.queryId
    requires AsResult(outcome).status.ProviderError?
    ensures var t := AfterError(st, prior, q, outcome);
            var r := ErrorRecord(prior, q, AsResult(outcome));
            Asked(plan, Base(prior, q.queryId), st, t, r) && Traced(Base(prior, q.queryId), st, t, r)
  {
    var base := Base(prior, q.queryId);
    ErrorRecordKeeps(prior, q, AsResult(outcome));
    AccountsNothing(base.sourceIds, SourcesOf(st.shared.verifications));
    AccountsNothing(base.evidenceIds, EvidenceOf(st.shared.verifications));
    AdvancesBeside(plan.scope.maxVerifications, st.shared, st.shared, AfterError(st, prior, q, outcome).shared);
    hide Accounts;
    hide Advances;
    hide Good;
    hide Grows;
    hide ErrorReasons;
    hide ErrorStatus;
    assert !ReturnsCandidates(outcome);
    assert AfterError(st, prior, q, outcome).searches == st.searches + [SearchCall(q.queryId, outcome)];
  }

  /** The work on the candidates of one search. */
  ghost predicate Result(plan: Plan, s: Shared, result: ProviderResult, w: Work) {
    && Sound(plan.scope.maxVerifications, s, w)
    && (Limited(plan, result) == [] ==> w == Fresh(s))
    && (Limited(plan, result) != [] && s.seen == {} ==> w.candidateIds != [])
  }

  lemma WorkedIsResult(plan: Plan, p: Providers, q: Query, s: Shared, result: ProviderResult)
    ensures Result(plan, s, result, Worked(plan, p, q, s, result))
  {
    var cs := Limited(plan, result);
    ExamineFirstKeeps(plan, p, q.queryId, s, cs, |cs|);
    hide Sound;
    hide Examine;
    if cs != [] && s.seen == {} {
      FirstIsListed(plan, p, q.queryId, s, cs, |cs|);
    }
  }

  lemma AnsweredShared(plan: Plan, st: RunState, prior: Option<QueryProgress>, q: Query, outcome: SearchOutcome, w: Work)
    requires Sound(plan.scope.maxVerifications, Entered(st.shared, outcome), w)
    ensures Advances(plan.scope.maxVerifications, st.shared, AfterWork(plan, st, prior, q, outcome, w).shared)
  {
    var budget := plan.scope.maxVerifications;
    var t := AfterWork(plan, st, prior, q, outcome, w);
    AdvancesTransitive(budget, st.shared, Entered(st.shared, outcome), w.shared);
    hide Advances;
    AdvancesBeside(budget, st.shared, w.shared, t.shared);
  }

  lemma AnsweredSearch(plan: Plan, st: RunState, prior: Option<QueryProgress>, q: Query, outcome: SearchOutcome, w: Work)
    requires prior.Some? ==> Good(prior.value) && !prior.value.Terminal() && prior.value.queryId == q.queryId
    requires !AsResult(outcome).status.ProviderError?
    requires Sound(plan.scope.maxVerifications, Entered(st.shared, outcome), w)
    ensures Asked(plan, Base(prior, q.queryId), st, AfterWork(plan, st, prior, q, outcome, w),
                  SearchRecord(plan, prior, q, AsResult(outcome), w))
  {
    hide Limited;
    hide Accounts;
    hide Advances;
    hide Good;
    hide Grows;
    hide Elems;
    hide Dedupe;
    hide SearchReasons;
    hide UnresolvedAfter;
    var base := Base(prior, q.queryId);
    SearchRecordKeeps(plan, prior, q, AsResult(outcome), Entered(st.shared, outcome), w);
    AccountsMerge(base.sourceIds, SourcesOf(st.shared.verifications), w.sources);
    AccountsMerge(base.evidenceIds, EvidenceOf(st.shared.verifications), w.evidence);
    AnsweredShared(plan, st, prior, q, outcome, w);
    hide SourcesOf;
    hide EvidenceOf;
  }

  lemma AnsweredTrace(plan: Plan, st: RunState, prior: Option<QueryProgress>, q: Query, outcome: SearchOutcome, w: Work)
    requires 1 <= plan.scope.maxCandidates
    requires prior.Some? ==> Good(prior.value) && !prior.value.Terminal() && prior.value.queryId == q.queryId
    requires !AsResult(outcome).status.ProviderError?
    requires Result(plan, Entered(st.shared, outcome), AsResult(outcome), w)
    ensures Traced(Base(prior, q.queryId), st, AfterWork(plan, st, prior, q, outcome, w),
                   SearchRecord(plan, prior, q, AsResult(outcome), w))
  {
    hide Advances;
    hide Good;
    hide Elems;
    hide Dedupe;
    hide SearchReasons;
    hide SearchStatus;
    hide SourcesOf;
    hide EvidenceOf;
    var result := AsResult(outcome);
    var cs := Limited(plan, result);
    var base := Base(prior, q.queryId);
    var r := SearchRecord(plan, prior, q, result, w);
    var t := AfterWork(plan, st, prior, q, outcome, w);
    assert outcome.Answered?;
    assert |cs| == 0 <==> |result.candidates| == 0;
    assert cs != [] ==> r.candidateCount > 0;
    assert t.searches == st.searches + [SearchCall(r.queryId, outcome)];
    if Open(base) && r.sourceIds == [] {
      OpenStaysOpen(plan, prior, q, result, w);
    }
    if cs == [] {
      NothingExamined(plan, prior, q, result, Entered(st.shared, outcome));
    } else if st.shared.seen == {} && r.sourceIds == [] {
      HitOpens(plan, prior, q, result, w);
    }
  }

  lemma NothingExamined(plan: Plan, prior: Option<QueryProgress>, q: Query, result: ProviderResult, s: Shared)
    requires prior.Some? ==> Good(prior.value)
    requires Limited(plan, result) == []
    ensures SearchRecord(plan, prior, q, result, Fresh(s)).candidateCount == Base(prior, q.queryId).candidateCount
  {
    var base := Base(prior, q.queryId);
    DedupeKeeps(base.candidateIds + []);
    hide SearchReasons;
    hide SearchStatus;
    hide Elems;
    hide Dedupe;
  }

  /** One query, whatever was recorded for it before and whatever its providers do. */
  lemma AskQueryKeeps(plan: Plan, p: Providers, previous: seq<QueryProgress>, st: RunState, q: Query) returns (r: QueryProgress)
    requires 1 <= plan.scope.maxCandidates
    requires forall x | x in previous :: Good(x)
    ensures Asked(plan, Base(Find(previous, q.queryId), q.queryId), st, AskQuery(plan, p, previous, st, q), r)
    ensures Traced(Base(Find(previous, q.queryId), q.queryId), st, AskQuery(plan, p, previous, st, q), r)
  {
    hide Asked;
    hide Traced;
    hide Good;
    hide Worked;
    hide AfterWork;
    hide AfterError;
    hide Sound;
    var prior := Find(previous, q.queryId);
    if prior.Some? && prior.value.Terminal() {
      r := prior.value;
      KeptRecord(plan, st, r, AskQuery(plan, p, previous, st, q));
    } else {
      var outcome := p.search(|st.searches|, q.text, plan.scope.maxCandidates);
      var result := AsResult(outcome);
      if result.status.ProviderError? {
        r := ErrorRecord(prior, q, result);
        FailedSearch(plan, st, prior, q, outcome);
      } else {
        var w := Worked(plan, p, q, Entered(st.shared, outcome), result);
        r := SearchRecord(plan, prior, q, result, w);
        WorkedIsResult(plan, p, q, Entered(st.shared, outcome), result);
        AnsweredSearch(plan, st, prior, q, outcome, w);
        AnsweredTrace(plan, st, prior, q, outcome, w);
      }
    }
  }
}
