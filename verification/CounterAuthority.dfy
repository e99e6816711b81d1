/** The bounded counter-authority search: its records, and the meaning of one call as a
    function of the plan, the providers and the progress it resumes from.

    The providers are arbitrary and may keep state: each of them is a function of the number
    of calls it has already answered in this run, so two calls with the same arguments may
    answer differently, time out or raise. */
module CounterAuthority {
  import opened Collections

  datatype QueryStatus = Pending | Found | NotFound | Partial | Failed | Blocked

  datatype OverallStatus = NotFoundInScope | PartialOverall | BlockedOverall | RetryRequired

  datatype ProviderStatus = ProviderFound | ProviderNotFound | ProviderPartial | ProviderError

  datatype Scope = Scope(maxCandidates: nat, maxVerifications: nat)

  datatype Query = Query(queryId: string, text: string, ordinal: nat)

  datatype Plan = Plan(planId: string, scope: Scope, queries: seq<Query>) {
    /** What the plan's own validator and field bounds establish. */
    ghost predicate Valid() {
      && 1 <= |queries| && 1 <= scope.maxCandidates && 1 <= scope.maxVerifications
      && (forall i | 0 <= i < |queries| :: queries[i].ordinal == i + 1)
      && (forall i, j | 0 <= i < j < |queries| :: queries[i].queryId != queries[j].queryId)
    }
  }

  datatype QueryProgress = QueryProgress(
    queryId: string,
    status: QueryStatus,
    providerStatus: Option<ProviderStatus>,
    providerErrorCode: Option<string>,
    candidateCount: nat,
    verifiedCount: nat,
    attemptCount: nat,
    candidateIds: seq<string>,
    verifiedIds: seq<string>,
    verifiedKeys: seq<string>,
    sourceIds: seq<string>,
    evidenceIds: seq<string>,
    reasons: seq<string>)
  {
    predicate Terminal() {
      status.Found? || status.NotFound?
    }

    predicate Retryable() {
      status.Partial? || status.Failed? || status.Blocked?
    }
  }

  datatype Progress = Progress(
    planId: string,
    totalQueries: nat,
    attempts: nat,
    nextOrdinal: nat,
    queries: seq<QueryProgress>)
  {
    predicate Complete() {
      nextOrdinal > totalQueries
    }
  }

  datatype Identity = Identity(canonicalJid: Option<string>, documentId: Option<string>)

  datatype Candidate = Candidate(
    candidateId: string,
    identity: Option<Identity>,
    officialIdentifier: Option<string>,
    officialUrl: Option<string>)

  datatype ProviderResult = ProviderResult(
    status: ProviderStatus,
    candidates: seq<Candidate>,
    errorCode: Option<string>,
    message: string,
    coverageComplete: bool)

  datatype Source = Source(sourceId: string, trusted: bool, hashed: bool, verifiedAt: Option<int>)

  datatype Evidence = Evidence(evidenceId: string, eligible: bool)

  datatype Verification = Verification(
    status: ProviderStatus,
    errorCode: Option<string>,
    source: Option<Source>,
    evidence: seq<Evidence>)
  {
    predicate Eligible() {
      && status.ProviderFound?
      && source.Some?
      && source.value.trusted
      && source.value.hashed
      && source.value.verifiedAt.Some?
      && exists e | e in evidence :: e.eligible
    }
  }

  datatype SearchOutcome = Answered(result: ProviderResult) | SearchTimedOut | SearchRaised(exception: string)
  datatype CostOutcome = Consumes(yes: bool) | CostRaised(exception: string)
  datatype VerifyOutcome = Checked(verification: Verification) | VerifyTimedOut | VerifyRaised(exception: string)

  /** The three callbacks and the text folding (whitespace and case) of candidate keys. */
  datatype Providers = Providers(
    search: (nat, string, nat) -> SearchOutcome,
    cost: (nat, Candidate) -> CostOutcome,
    verify: (nat, Candidate) -> VerifyOutcome,
    fold: string -> string)

  const PROVIDER_PREFIX := "COUNTER_AUTHORITY_PROVIDER_"
  const UNRESOLVED := "COUNTER_AUTHORITY_PRIOR_CANDIDATE_UNRESOLVED"

  // ----- Dictionaries and reading a resumed progress record ------------------------------

  function Find(records: seq<QueryProgress>, queryId: string): (r: Option<QueryProgress>)
    ensures r.Some? ==> r.value in records && r.value.queryId == queryId
    ensures r.None? ==> forall x | x in records :: x.queryId != queryId
  {
    if records == [] then None
    else if records[0].queryId == queryId then Some(records[0])
    else Find(records[1..], queryId)
  }

  /** Insertion into a dictionary keyed by query: an existing key keeps its place. */
  function Put(records: seq<QueryProgress>, r: QueryProgress): seq<QueryProgress> {
    if records == [] then [r]
    else if records[0].queryId == r.queryId then [r] + records[1..]
    else [records[0]] + Put(records[1..], r)
  }

  function ByQuery(records: seq<QueryProgress>): seq<QueryProgress> {
    if records == [] then [] else Put(ByQuery(records[..|records| - 1]), records[|records| - 1])
  }

  function Previous(resume: Option<Progress>): seq<QueryProgress> {
    if resume.None? then [] else ByQuery(resume.value.queries)
  }

  function SumAttempts(records: seq<QueryProgress>): nat {
    if records == [] then 0 else SumAttempts(records[..|records| - 1]) + records[|records| - 1].attemptCount
  }

  /** Candidate counts of the queries recorded as found: the floor for progress records
      written before attempts were counted. */
  function LegacyAttempts(records: seq<QueryProgress>): nat {
    if records == [] then 0
    else
      var last := records[|records| - 1];
      LegacyAttempts(records[..|records| - 1]) + (if last.status.Found? then last.candidateCount else 0)
  }

  function Max(a: nat, b: nat): nat {
    if a < b then b else a
  }

  function StartingAttempts(resume: Option<Progress>): nat {
    var records := Previous(resume);
    Max(Max(if resume.Some? then resume.value.attempts else 0, SumAttempts(records)), LegacyAttempts(records))
  }

  /** The keys a prior record keeps from being verified again. */
  function SeedOf(r: QueryProgress): set<string> {
    if r.Terminal() then Elems(r.candidateIds) else Elems(r.verifiedIds) + Elems(r.verifiedKeys)
  }

  function Seeds(records: seq<QueryProgress>): set<string> {
    if records == [] then {} else Seeds(records[..|records| - 1]) + SeedOf(records[|records| - 1])
  }

  function PriorSources(records: seq<QueryProgress>): set<string> {
    if records == [] then {} else PriorSources(records[..|records| - 1]) + Elems(records[|records| - 1].sourceIds)
  }

  function PriorEvidence(records: seq<QueryProgress>): set<string> {
    if records == [] then {} else PriorEvidence(records[..|records| - 1]) + Elems(records[|records| - 1].evidenceIds)
  }

  function PriorUnresolvedIds(prior: Option<QueryProgress>): set<string> {
    if prior.Some? && prior.value.Retryable() then
      var r := prior.value;
      (Elems(r.candidateIds) - Elems(r.verifiedIds))
      + (if r.candidateCount > 0 && r.verifiedIds == [] then Elems(r.candidateIds) else {})
    else {}
  }

  predicate PriorUnresolved(prior: Option<QueryProgress>) {
    && prior.Some? && prior.value.Retryable()
    && (|| PriorUnresolvedIds(prior) != {}
        || prior.value.candidateCount > |prior.value.verifiedIds|
        || UNRESOLVED in prior.value.reasons)
  }

  function CandidateKey(fold: string -> string, c: Candidate): string {
    if c.identity.Some? && Truthy(c.identity.value.canonicalJid) then fold(c.identity.value.canonicalJid.value)
    else if c.identity.Some? && Truthy(c.identity.value.documentId) then fold(c.identity.value.documentId.value)
    else if Truthy(c.officialIdentifier) then fold(c.officialIdentifier.value)
    else if Truthy(c.officialUrl) then fold(c.officialUrl.value)
    else if c.candidateId != "" then fold(c.candidateId)
    else c.candidateId
  }

  predicate Truthy(s: Option<string>) {
    s.Some? && s.value != ""
  }

  // ----- One candidate ------------------------------------------------------------------

  /** One call of the verification provider, whether it consumed budget, and its answer. */
  datatype VerifyCall = VerifyCall(queryId: string, candidate: Candidate, key: string, charged: bool, outcome: VerifyOutcome)

  /** One call of the search provider. */
  datatype SearchCall = SearchCall(queryId: string, outcome: SearchOutcome)

  /** State shared by all queries of a run. The traces of provider calls are part of the
      specification only. */
  datatype Shared = Shared(
    seen: set<string>,
    attempts: nat,
    exhausted: bool,
    failures: nat,
    candidateTotal: nat,
    verifications: seq<Verification>,
    costCalls: nat,
    calls: seq<VerifyCall>)

  /** Working state of one query. */
  datatype Work = Work(
    shared: Shared,
    candidateIds: seq<string>,
    verifiedIds: seq<string>,
    verifiedKeys: seq<string>,
    sources: seq<string>,
    evidence: seq<string>,
    reasons: seq<string>,
    failed: bool,
    charged: nat,
    stopped: bool)

  function EligibleIds(evidence: seq<Evidence>): seq<string> {
    if evidence == [] then []
    else
      var last := evidence[|evidence| - 1];
      EligibleIds(evidence[..|evidence| - 1]) + (if last.eligible then [last.evidenceId] else [])
  }

  /** The candidate is listed and its cost is asked for. */
  function Listed(w: Work, c: Candidate, cost: CostOutcome): Work {
    var w1 := w.(candidateIds := w.candidateIds + [c.candidateId],
                 shared := w.shared.(candidateTotal := w.shared.candidateTotal + 1,
                                     costCalls := w.shared.costCalls + 1));
    match cost
    case Consumes(_) => w1
    case CostRaised(e) =>
      w1.(failed := true, reasons := w1.reasons + ["COUNTER_AUTHORITY_VERIFICATION_COST_ERROR:" + e])
  }

  predicate Charges(cost: CostOutcome) {
    cost.CostRaised? || cost.yes
  }

  function OutOfBudget(w: Work): Work {
    w.(shared := w.shared.(exhausted := true),
       failed := true,
       reasons := w.reasons + ["COUNTER_AUTHORITY_VERIFICATION_BUDGET_EXHAUSTED"],
       stopped := true)
  }

  function Called(w: Work, call: VerifyCall): Work {
    var one := if call.charged then 1 else 0;
    w.(charged := w.charged + one,
       shared := w.shared.(attempts := w.shared.attempts + one,
                           seen := w.shared.seen + {call.key},
                           calls := w.shared.calls + [call]))
  }

  function Settled(w: Work, c: Candidate, key: string, outcome: VerifyOutcome): Work {
    match outcome
    case VerifyTimedOut =>
      w.(shared := w.shared.(failures := w.shared.failures + 1),
         failed := true,
         reasons := w.reasons + ["COUNTER_AUTHORITY_VERIFICATION_TIMEOUT"])
    case VerifyRaised(e) =>
      w.(shared := w.shared.(failures := w.shared.failures + 1),
         failed := true,
         reasons := w.reasons + ["COUNTER_AUTHORITY_VERIFICATION_ERROR:" + e])
    case Checked(v) =>
      if v.Eligible() then
        w.(shared := w.shared.(verifications := w.shared.verifications + [v]),
           verifiedIds := w.verifiedIds + [c.candidateId],
           verifiedKeys := w.verifiedKeys + [key],
           sources := w.sources + [v.source.value.sourceId],
           evidence := w.evidence + EligibleIds(v.evidence))
      else
        w.(failed := true,
           reasons := w.reasons + [if v.errorCode.Some? then v.errorCode.value
                                   else "COUNTER_AUTHORITY_CANDIDATE_UNVERIFIED"])
  }

  function Examine(plan: Plan, p: Providers, queryId: string, w: Work, c: Candidate): Work {
    var key := CandidateKey(p.fold, c);
    if w.stopped || key in w.shared.seen then w
    else
      var cost := p.cost(w.shared.costCalls, c);
      var w1 := Listed(w, c, cost);
      if Charges(cost) && w1.shared.attempts >= plan.scope.maxVerifications then OutOfBudget(w1)
      else
        var outcome := p.verify(|w.shared.calls|, c);
        Settled(Called(w1, VerifyCall(queryId, c, key, Charges(cost), outcome)), c, key, outcome)
  }

  function ExamineFirst(plan: Plan, p: Providers, queryId: string, w: Work, cs: seq<Candidate>, n: nat): Work
    requires n <= |cs|
  {
    if n == 0 then w else Examine(plan, p, queryId, ExamineFirst(plan, p, queryId, w, cs, n - 1), cs[n - 1])
  }

  // ----- One query ----------------------------------------------------------------------

  datatype RunState = RunState(
    shared: Shared,
    completed: nat,
    cleanMisses: nat,
    items: seq<QueryProgress>,
    reasons: seq<string>,
    searches: seq<SearchCall>)

  function ErrorResult(message: string): ProviderResult {
    ProviderResult(ProviderError, [], None, message, false)
  }

  /** A provider that times out or raises counts as an error answer. */
  function AsResult(outcome: SearchOutcome): ProviderResult {
    match outcome
    case Answered(r) => r
    case SearchTimedOut => ErrorResult("COUNTER_AUTHORITY_PROVIDER_TIMEOUT")
    case SearchRaised(e) => ErrorResult("COUNTER_AUTHORITY_PROVIDER_ERROR:" + e)
  }

  function SearchFailures(outcome: SearchOutcome): nat {
    var result := AsResult(outcome);
    (if outcome.Answered? then 0 else 1)
    + (if result.status.ProviderError? && !(PROVIDER_PREFIX <= result.message) then 1 else 0)
  }

  function ErrorReason(result: ProviderResult): string {
    if result.errorCode.Some? then result.errorCode.value
    else if result.message != "" then result.message
    else "COUNTER_AUTHORITY_PROVIDER_ERROR"
  }

  function ErrorStatus(prior: Option<QueryProgress>, errorCode: Option<string>): QueryStatus {
    if || PriorUnresolved(prior)
       || (prior.Some? && (prior.value.candidateCount > 0 || prior.value.candidateIds != [] || prior.value.verifiedIds != []))
    then Partial
    else if errorCode == Some("OFFICIAL_SOURCE_BLOCKED") || errorCode == Some("PRIVACY_EXTERNAL_QUERY_BLOCKED")
    then Blocked
    else Failed
  }

  function ErrorReasons(prior: Option<QueryProgress>, result: ProviderResult): seq<string> {
    [ErrorReason(result)] + if PriorUnresolved(prior) then [UNRESOLVED] else []
  }

  function Empty(queryId: string): QueryProgress {
    QueryProgress(queryId, Pending, None, None, 0, 0, 0, [], [], [], [], [], [])
  }

  /** A missing prior record reads as empty lists and zero counts. */
  function Base(prior: Option<QueryProgress>, queryId: string): QueryProgress {
    if prior.Some? then prior.value else Empty(queryId)
  }

  function ErrorRecord(prior: Option<QueryProgress>, q: Query, result: ProviderResult): QueryProgress {
    var base := Base(prior, q.queryId);
    QueryProgress(q.queryId, ErrorStatus(prior, result.errorCode), Some(result.status), result.errorCode,
                  base.candidateCount, |base.sourceIds|, base.attemptCount,
                  base.candidateIds, base.verifiedIds, base.verifiedKeys, base.sourceIds, base.evidenceIds,
                  ErrorReasons(prior, result))
  }

  predicate UnresolvedAfter(prior: Option<QueryProgress>, verifiedIds: seq<string>) {
    && PriorUnresolved(prior)
    && (PriorUnresolvedIds(prior) == {} || PriorUnresolvedIds(prior) - Elems(verifiedIds) != {})
  }

  predicate Incomplete(prior: Option<QueryProgress>, result: ProviderResult, w: Work) {
    result.status.ProviderPartial? || !result.coverageComplete || w.failed || UnresolvedAfter(prior, w.verifiedIds)
  }

  function SearchStatus(prior: Option<QueryProgress>, result: ProviderResult, w: Work): QueryStatus {
    if Incomplete(prior, result, w) then Partial
    else if result.status.ProviderNotFound? then NotFound
    else Found
  }

  function SearchReasons(prior: Option<QueryProgress>, result: ProviderResult, w: Work): seq<string> {
    w.reasons
    + (if UnresolvedAfter(prior, w.verifiedIds) then [UNRESOLVED] else [])
    + (if Incomplete(prior, result, w) then ["COUNTER_AUTHORITY_SCOPE_PARTIAL"] else [])
  }

  function Limited(plan: Plan, result: ProviderResult): seq<Candidate> {
    if |result.candidates| <= plan.scope.maxCandidates then result.candidates
    else result.candidates[..plan.scope.maxCandidates]
  }

  function SearchRecord(plan: Plan, prior: Option<QueryProgress>, q: Query, result: ProviderResult, w: Work): QueryProgress {
    var base := Base(prior, q.queryId);
    var candidateIds := Dedupe(base.candidateIds + w.candidateIds);
    var sources := Dedupe(base.sourceIds + w.sources);
    QueryProgress(q.queryId, SearchStatus(prior, result, w), Some(result.status), result.errorCode,
                  Max(Max(base.candidateCount, |candidateIds|), |Limited(plan, result)|),
                  |sources|,
                  base.attemptCount + w.charged,
                  candidateIds,
                  Dedupe(base.verifiedIds + w.verifiedIds),
                  Dedupe(base.verifiedKeys + w.verifiedKeys),
                  sources,
                  Dedupe(base.evidenceIds + w.evidence),
                  Dedupe(SearchReasons(prior, result, w)))
  }

  function Fresh(shared: Shared): Work {
    Work(shared, [], [], [], [], [], [], false, 0, false)
  }

  /** The query's work on the candidates a search returned. */
  function Worked(plan: Plan, p: Providers, q: Query, shared: Shared, result: ProviderResult): Work {
    var cs := Limited(plan, result);
    ExamineFirst(plan, p, q.queryId, Fresh(shared), cs, |cs|)
  }

  function Count(b: bool): nat {
    if b then 1 else 0
  }

  function AfterError(st: RunState, prior: Option<QueryProgress>, q: Query, outcome: SearchOutcome): RunState {
    var result := AsResult(outcome);
    st.(shared := Entered(st.shared, outcome),
        reasons := st.reasons + ErrorReasons(prior, result),
        items := st.items + [ErrorRecord(prior, q, result)],
        searches := st.searches + [SearchCall(q.queryId, outcome)])
  }

  /** The run after a query whose candidates have been worked on. */
  function Recorded(st: RunState, w: Work, r: QueryProgress, reasons: seq<string>, call: SearchCall): RunState {
    RunState(w.shared.(failures := w.shared.failures + Count(r.status.Partial?)),
             st.completed + Count(r.Terminal()),
             st.cleanMisses + Count(r.status.NotFound?),
             st.items + [r],
             st.reasons + reasons,
             st.searches + [call])
  }

  function AfterWork(plan: Plan, st: RunState, prior: Option<QueryProgress>, q: Query, outcome: SearchOutcome, w: Work): RunState {
    var result := AsResult(outcome);
    Recorded(st, w, SearchRecord(plan, prior, q, result, w), SearchReasons(prior, result, w), SearchCall(q.queryId, outcome))
  }

  /** The shared state in which the candidates of a search are examined. */
  function Entered(shared: Shared, outcome: SearchOutcome): Shared {
    shared.(failures := shared.failures + SearchFailures(outcome))
  }

  function AfterSearch(plan: Plan, p: Providers, st: RunState, prior: Option<QueryProgress>, q: Query, outcome: SearchOutcome): RunState {
    AfterWork(plan, st, prior, q, outcome, Worked(plan, p, q, Entered(st.shared, outcome), AsResult(outcome)))
  }

  function AskQuery(plan: Plan, p: Providers, previous: seq<QueryProgress>, st: RunState, q: Query): RunState {
    var prior := Find(previous, q.queryId);
    if prior.Some? && prior.value.Terminal() then
      st.(completed := st.completed + 1,
          cleanMisses := st.cleanMisses + Count(prior.value.status.NotFound?),
          items := st.items + [prior.value])
    else
      var outcome := p.search(|st.searches|, q.text, plan.scope.maxCandidates);
      if AsResult(outcome).status.ProviderError? then AfterError(st, prior, q, outcome)
      else AfterSearch(plan, p, st, prior, q, outcome)
  }

  // ----- One run ------------------------------------------------------------------------

  function Start(plan: Plan, resume: Option<Progress>): RunState {
    var attempts := StartingAttempts(resume);
    RunState(Shared(Seeds(Previous(resume)), attempts, attempts >= plan.scope.maxVerifications, 0, 0, [], 0, []),
             0, 0, [], [], [])
  }

  function AskFirst(plan: Plan, p: Providers, resume: Option<Progress>, n: nat): RunState
    requires n <= |plan.queries|
  {
    if n == 0 then Start(plan, resume)
    else AskQuery(plan, p, Previous(resume), AskFirst(plan, p, resume, n - 1), plan.queries[n - 1])
  }

  /** The first ordinal whose record is missing or still open. */
  function NextOrdinal(queries: seq<Query>, total: nat, items: seq<QueryProgress>): nat {
    if queries == [] then total + 1
    else
      var r := Find(items, queries[0].queryId);
      if r.None? || !r.value.Terminal() then queries[0].ordinal
      else NextOrdinal(queries[1..], total, items)
  }

  datatype RunResult = RunResult(
    status: OverallStatus,
    progress: Progress,
    candidateCount: nat,
    verifiedCount: nat,
    verifiedSourceIds: set<string>,
    verifiedEvidenceIds: set<string>,
    attempts: nat,
    budgetExhausted: bool,
    coverageComplete: bool,
    relationUnclassified: bool,
    absenceClaimAllowed: bool,
    reasons: seq<string>)

  function SourcesOf(verifications: seq<Verification>): set<string> {
    if verifications == [] then {}
    else
      var last := verifications[|verifications| - 1];
      SourcesOf(verifications[..|verifications| - 1]) + (if last.source.Some? then {last.source.value.sourceId} else {})
  }

  function EvidenceOf(verifications: seq<Verification>): set<string> {
    if verifications == [] then {}
    else
      EvidenceOf(verifications[..|verifications| - 1]) + Elems(EligibleIds(verifications[|verifications| - 1].evidence))
  }

  function Decide(plan: Plan, st: RunState, sources: set<string>): OverallStatus {
    if sources != {} then PartialOverall
    else if st.shared.exhausted then PartialOverall
    else if st.completed == |plan.queries| && st.shared.failures == 0 && st.cleanMisses == |plan.queries|
    then NotFoundInScope
    else if st.completed > 0 then PartialOverall
    else if exists r | r in st.items :: r.status.Blocked? then BlockedOverall
    else RetryRequired
  }

  function FinalReasons(reasons: seq<string>, status: OverallStatus, verified: bool, exhausted: bool): seq<string> {
    var r1 := if verified then Dedupe(Dedupe(reasons) + ["COUNTER_AUTHORITY_RELATION_UNCLASSIFIED"]) else Dedupe(reasons);
    var r2 :=
      match status
      case NotFoundInScope => Dedupe(r1 + ["COUNTER_AUTHORITY_NOT_FOUND_IN_SCOPE"])
      case PartialOverall => Dedupe(r1 + ["COUNTER_AUTHORITY_PARTIAL"])
      case RetryRequired => Dedupe(r1 + ["COUNTER_AUTHORITY_RETRY_REQUIRED"])
      case BlockedOverall => r1;
    if exhausted then Dedupe(r2 + ["COUNTER_AUTHORITY_VERIFICATION_BUDGET_TRUNCATED"]) else r2
  }

  function Finish(plan: Plan, previous: seq<QueryProgress>, st: RunState): RunResult {
    var sources := PriorSources(previous) + SourcesOf(st.shared.verifications);
    var evidence := PriorEvidence(previous) + EvidenceOf(st.shared.verifications);
    var status := Decide(plan, st, sources);
    RunResult(status,
              Progress(plan.planId, |plan.queries|, st.shared.attempts,
                       NextOrdinal(plan.queries, |plan.queries|, st.items), st.items),
              st.shared.candidateTotal, |sources|, sources, evidence, st.shared.attempts, st.shared.exhausted,
              st.completed == |plan.queries| && st.shared.failures == 0 && !st.shared.exhausted,
              sources != {},
              status.NotFoundInScope?,
              FinalReasons(st.reasons, status, sources != {}, st.shared.exhausted))
  }

  /** Everything one call does: its result, the fresh verifications, and the provider calls. */
  datatype Run = Run(result: RunResult, verifications: seq<Verification>, searches: seq<SearchCall>, calls: seq<VerifyCall>)

  function Execute(plan: Plan, p: Providers, resume: Option<Progress>): Run {
    var st := AskFirst(plan, p, resume, |plan.queries|);
    Run(Finish(plan, Previous(resume), st), st.shared.verifications, st.searches, st.shared.calls)
  }
}
