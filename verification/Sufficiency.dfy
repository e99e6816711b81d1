/** Evaluating, from server-owned run state alone, whether research can support an answer. */
module Sufficiency {
  import opened Collections
  import opened Sorting

  datatype Kind =
    | ExternalPlanReview | QueryUnderstanding | PrivacyScreen | LawResearch | JudgmentRecall
    | JudgmentOfficialVerification | ConstitutionalResearch | CounterAuthorityResearch
    | LegalTimeContext | EvidenceSufficiency | FinalAnswerValidation

  datatype ObligationStatus = Pending | InProgress | Completed | Blocked

  datatype Obligation = Obligation(kind: Kind, status: ObligationStatus, required: bool, reason: string, blockerCode: Option<string>)

  datatype Coverage = Coverage(
    law: bool,
    judgment: bool,
    constitutional: bool,
    counter: bool,
    counterComplete: Option<bool>,
    time: bool,
    limitations: seq<string>,
    complete: bool,
    absenceAllowed: bool,
    partialCodes: seq<string>,
    errorCodes: seq<string>,
    timeoutCodes: seq<string>,
    boundedScope: Option<string>)

  datatype RunBlocker = RunBlocker(code: string)

  datatype Run = Run(
    runId: string,
    synthetic: bool,
    obligations: seq<Obligation>,
    coverage: Coverage,
    blockers: seq<RunBlocker>,
    sourceIds: seq<string>,
    evidenceIds: seq<string>,
    recallDegraded: bool,
    recallIncomplete: bool)

  datatype Level = Sufficient | Qualified | Insufficient | RetryRequired

  datatype Mode = Ordinary | Conditional | RefusalOnly
  {
    /** Refusal lies below conditional, conditional below ordinary. */
    function Rank(): nat {
      match this
      case RefusalOnly => 0
      case Conditional => 1
      case Ordinary => 2
    }
  }

  datatype SufficiencyAssessment = SufficiencyAssessment(
    level: Level,
    mode: Mode,
    workflowComplete: bool,
    reasonCodes: seq<string>,
    missing: seq<Kind>)

  // ----- Reading codes ------------------------------------------------------------------

  /** Whether a code marks a passing condition; `upper` is the upper-casing of text. */
  predicate Retryable(upper: string -> string, code: string) {
    var normalized := upper(code);
    || Contains(normalized, "UNAVAILABLE") || Contains(normalized, "TIMEOUT") || Contains(normalized, "TEMPORARY")
    || Contains(normalized, "RATE_LIMIT") || Contains(normalized, "RETRY")
  }

  predicate RetryableObligation(upper: string -> string, o: Obligation) {
    Retryable(upper, if o.blockerCode.Some? then o.blockerCode.value else "") || Retryable(upper, o.reason)
  }

  function KindValue(kind: Kind): string {
    match kind
    case ExternalPlanReview => "external_plan_review"
    case QueryUnderstanding => "query_understanding"
    case PrivacyScreen => "privacy_screen"
    case LawResearch => "law_research"
    case JudgmentRecall => "judgment_recall"
    case JudgmentOfficialVerification => "judgment_official_verification"
    case ConstitutionalResearch => "constitutional_research"
    case CounterAuthorityResearch => "counter_authority"
    case LegalTimeContext => "legal_time_context"
    case EvidenceSufficiency => "evidence_sufficiency"
    case FinalAnswerValidation => "final_answer_validation"
  }

  // ----- What a run shows ---------------------------------------------------------------

  /** An obligation that counts: required, and not the final validation itself. */
  predicate Counts(o: Obligation) {
    o.required && !o.kind.FinalAnswerValidation?
  }

  predicate IsPending(o: Obligation) {
    Counts(o) && !o.status.Completed?
  }

  predicate Requires(run: Run, kind: Kind) {
    exists o | o in run.obligations :: Counts(o) && o.kind == kind
  }

  predicate WorkflowComplete(run: Run) {
    forall o | o in run.obligations :: !IsPending(o)
  }

  /** Coverage flags by obligation kind; other kinds need none. */
  predicate Checked(c: Coverage, kind: Kind) {
    match kind
    case LawResearch => c.law
    case JudgmentRecall => c.judgment
    case JudgmentOfficialVerification => c.judgment
    case ConstitutionalResearch => c.constitutional
    case CounterAuthorityResearch => c.counter
    case LegalTimeContext => c.time
    case _ => true
  }

  predicate Missing(run: Run, kind: Kind) {
    Requires(run, kind) && !Checked(run.coverage, kind)
  }

  predicate HardGap(run: Run, o: Obligation) {
    Counts(o) && !o.kind.CounterAuthorityResearch? && !Checked(run.coverage, o.kind)
  }

  predicate HardMissing(run: Run) {
    exists o | o in run.obligations :: HardGap(run, o)
  }

  predicate UnsupportedVersion(codes: seq<string>) {
    exists code | code in codes :: Contains(code, "HISTORICAL_LAW_VERSION_UNSUPPORTED")
  }

  predicate VerificationIncomplete(run: Run) {
    Requires(run, JudgmentOfficialVerification) && run.recallIncomplete
  }

  predicate TimeIncomplete(run: Run) {
    Requires(run, LegalTimeContext)
    && (UnsupportedVersion(run.coverage.limitations) || UnsupportedVersion(run.coverage.partialCodes)
        || UnsupportedVersion(run.coverage.errorCodes))
  }

  predicate RetryBlocked(upper: string -> string, o: Obligation) {
    IsPending(o) && o.status.Blocked? && RetryableObligation(upper, o)
  }

  predicate RetryNeeded(upper: string -> string, run: Run) {
    || run.coverage.timeoutCodes != []
    || (exists code | code in run.coverage.errorCodes :: Retryable(upper, code))
    || (exists o | o in run.obligations :: RetryBlocked(upper, o))
  }

  /** The facts that leave nothing to present: whatever they are, the answer is a refusal. */
  predicate Refused(run: Run) {
    || !WorkflowComplete(run)
    || run.coverage.timeoutCodes != [] || run.coverage.errorCodes != []
    || run.synthetic || run.evidenceIds == []
    || HardMissing(run) || VerificationIncomplete(run) || TimeIncomplete(run)
  }

  predicate HasGaps(run: Run) {
    || run.coverage.partialCodes != [] || run.coverage.limitations != []
    || run.recallDegraded || run.recallIncomplete
    || !run.coverage.complete || Missing(run, CounterAuthorityResearch)
  }

  /** The permitted answer mode, in terms of the run's facts alone. */
  function ModeOf(run: Run): Mode {
    if Refused(run) then RefusalOnly else if HasGaps(run) then Conditional else Ordinary
  }

  function LevelOf(upper: string -> string, run: Run): Level {
    if RetryNeeded(upper, run) then RetryRequired
    else match ModeOf(run)
      case RefusalOnly => Insufficient
      case Conditional => Qualified
      case Ordinary => Sufficient
  }

  /** A run needing a retry is always refused, whatever its codes are called. */
  lemma RetryIsRefused(upper: string -> string, run: Run)
    ensures RetryNeeded(upper, run) ==> Refused(run)
  {
    hide Retryable;
    hide RetryableObligation;
  }

  // ----- The reasons --------------------------------------------------------------------

  ghost function Prefixed(prefix: string, codes: seq<string>): set<string> {
    set code | code in codes :: prefix + code
  }

  function PendingKinds(obligations: seq<Obligation>): seq<Kind> {
    if obligations == [] then []
    else
      var last := obligations[|obligations| - 1];
      PendingKinds(obligations[..|obligations| - 1]) + if IsPending(last) then [last.kind] else []
  }

  ghost function ObligationReasons(upper: string -> string, run: Run): set<string> {
    (if WorkflowComplete(run) then {} else {"RESEARCH_REQUIRED_OBLIGATION_PENDING"})
    + (if exists o | o in run.obligations :: IsPending(o) && o.status.Blocked? then {"RESEARCH_REQUIRED_OBLIGATION_BLOCKED"} else {})
    + (set o | o in run.obligations && IsPending(o) && o.status.Blocked? && !RetryableObligation(upper, o) ::
         "NON_RETRYABLE_BLOCKED:" + KindValue(o.kind))
  }

  ghost function RetryReasons(upper: string -> string, run: Run): set<string> {
    (set o | o in run.obligations && RetryBlocked(upper, o) :: "RETRY_REQUIRED:" + KindValue(o.kind))
    + Prefixed("RETRY_REQUIRED:", run.coverage.timeoutCodes)
    + (set code | code in run.coverage.errorCodes && Retryable(upper, code) :: "RETRY_REQUIRED:" + code)
  }

  ghost function HardReasons(run: Run): set<string> {
    set o | o in run.obligations && HardGap(run, o) :: "REQUIRED_COVERAGE_MISSING:" + KindValue(o.kind)
  }

  ghost function MissingReasons(run: Run): set<string> {
    (if Missing(run, CounterAuthorityResearch) then {"SOFT_COVERAGE_MISSING:counter_authority"} else {})
    + HardReasons(run)
    + (if VerificationIncomplete(run) then {"REQUIRED_COVERAGE_INCOMPLETE:judgment_official_verification"} else {})
    + (if TimeIncomplete(run) then {"REQUIRED_COVERAGE_INCOMPLETE:legal_time_context"} else {})
  }

  ghost function CoverageReasons(run: Run): set<string> {
    Prefixed("COVERAGE_ERROR:", run.coverage.errorCodes)
    + (if run.synthetic then {"SYNTHETIC_MODE_NO_LIVE_EVIDENCE"} else {})
    + (if run.evidenceIds == [] then {"NO_SERVER_VERIFIED_EVIDENCE"} else {})
    + MissingReasons(run)
  }

  ghost function ReasonsOf(upper: string -> string, run: Run): set<string> {
    ObligationReasons(upper, run)
    + (if RetryNeeded(upper, run) then RetryReasons(upper, run) else CoverageReasons(run))
    + (if ModeOf(run).Conditional? then {"RESEARCH_COVERAGE_QUALIFIED"} else {})
  }

  /** Sufficient research leaves no reason to report. */
  lemma SufficientHasNoReasons(upper: string -> string, run: Run)
    ensures ModeOf(run).Ordinary? ==> ReasonsOf(upper, run) == {}
    ensures ModeOf(run).Conditional? ==> "RESEARCH_COVERAGE_QUALIFIED" in ReasonsOf(upper, run)
  {
    hide KindValue;
    hide Retryable;
    hide RetryableObligation;
    hide UnsupportedVersion;
    hide Checked;
    RetryIsRefused(upper, run);
    if ModeOf(run).Ordinary? {
      assert Prefixed("COVERAGE_ERROR:", []) == {};
      assert ObligationReasons(upper, run) == {};
      assert CoverageReasons(run) == {};
    }
  }

  // ----- Evaluation ---------------------------------------------------------------------

  method AddPrefixed(reasons0: seq<string>, prefix: string, codes: seq<string>) returns (reasons: seq<string>)
    ensures Elems(reasons) == Elems(reasons0) + Prefixed(prefix, codes)
  {
    reasons := reasons0;
    for i := 0 to |codes|
      invariant Elems(reasons) == Elems(reasons0) + Prefixed(prefix, codes[..i])
    {
      PrefixedAppend(prefix, codes[..i], codes[i]);
      assert codes[..i + 1] == codes[..i] + [codes[i]];
      ElemsAppend(reasons, prefix + codes[i]);
      reasons := reasons + [prefix + codes[i]];
    }
    assert codes[..|codes|] == codes;
  }

  lemma PrefixedAppend(prefix: string, codes: seq<string>, code: string)
    ensures Prefixed(prefix, codes + [code]) == Prefixed(prefix, codes) + {prefix + code}
  {
    assert code in codes + [code];
    assert forall c | c in codes :: c in codes + [code];
  }

  /** The values of the kinds of the obligations that satisfy `p`, in order. */
  function KindValues(obligations: seq<Obligation>, p: Obligation -> bool): (r: seq<string>)
    ensures Elems(r) == set o | o in obligations && p(o) :: KindValue(o.kind)
  {
    if obligations == [] then []
    else
      var rest, last := obligations[..|obligations| - 1], obligations[|obligations| - 1];
      assert obligations == rest + [last];
      hide KindValue;
      var before := KindValues(rest, p);
      ElemsAppend(before, KindValue(last.kind));
      if p(last) then before + [KindValue(last.kind)] else before
  }

  function Matching(codes: seq<string>, p: string -> bool): (r: seq<string>)
    ensures Elems(r) == set code | code in codes && p(code)
  {
    if codes == [] then []
    else
      var rest, last := codes[..|codes| - 1], codes[|codes| - 1];
      assert codes == rest + [last];
      var before := Matching(rest, p);
      ElemsAppend(before, last);
      if p(last) then before + [last] else before
  }

  /** The reasons that concern the obligations, blocked ones without prospect of a retry included. */
  method ReadObligations(upper: string -> string, run: Run) returns (reasons: seq<string>)
    ensures Elems(reasons) == ObligationReasons(upper, run)
  {
    hide Retryable;
    hide RetryableObligation;
    hide KindValue;
    hide IsPending;
    reasons := AddIf([], !WorkflowComplete(run), "RESEARCH_REQUIRED_OBLIGATION_PENDING");
    reasons := AddIf(reasons, exists o | o in run.obligations :: IsPending(o) && o.status.Blocked?, "RESEARCH_REQUIRED_OBLIGATION_BLOCKED");
    var kinds := KindValues(run.obligations, o => IsPending(o) && o.status.Blocked? && !RetryableObligation(upper, o));
    ghost var before := reasons;
    reasons := AddPrefixed(reasons, "NON_RETRYABLE_BLOCKED:", kinds);
    PrefixedKinds("NON_RETRYABLE_BLOCKED:", run.obligations, o => IsPending(o) && o.status.Blocked? && !RetryableObligation(upper, o));
    assert Elems<string>([]) == {};
    hide Elems;
    hide Prefixed;
  }

  lemma PrefixedKinds(prefix: string, obligations: seq<Obligation>, p: Obligation -> bool)
    ensures Prefixed(prefix, KindValues(obligations, p)) == set o | o in obligations && p(o) :: prefix + KindValue(o.kind)
  {
    hide KindValue;
    var kinds := KindValues(obligations, p);
    forall v | v in Elems(kinds)
      ensures exists o :: o in obligations && p(o) && v == KindValue(o.kind)
    {
    }
    forall o | o in obligations && p(o)
      ensures KindValue(o.kind) in kinds
    {
      assert KindValue(o.kind) in Elems(kinds);
    }
    forall v | v in kinds
      ensures v in Elems(kinds)
    {
    }
    hide KindValues;
  }

  lemma PrefixedMatching(prefix: string, codes: seq<string>, p: string -> bool)
    ensures Prefixed(prefix, Matching(codes, p)) == set code | code in codes && p(code) :: prefix + code
  {
    var found := Matching(codes, p);
    forall v
      ensures v in found <==> v in codes && p(v)
    {
      assert v in found <==> v in Elems(found);
    }
    hide Matching;
  }

  method ReadRetries(upper: string -> string, run: Run, reasons0: seq<string>) returns (reasons: seq<string>)
    ensures Elems(reasons) == Elems(reasons0) + RetryReasons(upper, run)
  {
    hide Retryable;
    hide KindValue;
    hide RetryBlocked;
    hide Elems;
    hide Prefixed;
    reasons := AddPrefixed(reasons0, "RETRY_REQUIRED:", KindValues(run.obligations, o => RetryBlocked(upper, o)));
    PrefixedKinds("RETRY_REQUIRED:", run.obligations, o => RetryBlocked(upper, o));
    reasons := AddPrefixed(reasons, "RETRY_REQUIRED:", run.coverage.timeoutCodes);
    reasons := AddPrefixed(reasons, "RETRY_REQUIRED:", Matching(run.coverage.errorCodes, code => Retryable(upper, code)));
    PrefixedMatching("RETRY_REQUIRED:", run.coverage.errorCodes, code => Retryable(upper, code));
  }

  method ReadMissing(run: Run, reasons0: seq<string>) returns (reasons: seq<string>)
    ensures Elems(reasons) == Elems(reasons0) + MissingReasons(run)
  {
    hide KindValue;
    hide Elems;
    hide Prefixed;
    hide Missing;
    hide VerificationIncomplete;
    hide TimeIncomplete;
    hide HardGap;
    reasons := AddIf(reasons0, Missing(run, CounterAuthorityResearch), "SOFT_COVERAGE_MISSING:counter_authority");
    var kinds := KindValues(run.obligations, o => HardGap(run, o));
    reasons := AddPrefixed(reasons, "REQUIRED_COVERAGE_MISSING:", kinds);
    PrefixedKinds("REQUIRED_COVERAGE_MISSING:", run.obligations, o => HardGap(run, o));
    hide KindValues;
    reasons := AddIf(reasons, VerificationIncomplete(run), "REQUIRED_COVERAGE_INCOMPLETE:judgment_official_verification");
    reasons := AddIf(reasons, TimeIncomplete(run), "REQUIRED_COVERAGE_INCOMPLETE:legal_time_context");
  }

  method ReadCoverage(run: Run, reasons0: seq<string>) returns (reasons: seq<string>)
    ensures Elems(reasons) == Elems(reasons0) + CoverageReasons(run)
  {
    hide Elems;
    hide Prefixed;
    hide MissingReasons;
    reasons := AddPrefixed(reasons0, "COVERAGE_ERROR:", run.coverage.errorCodes);
    reasons := AddIf(reasons, run.synthetic, "SYNTHETIC_MODE_NO_LIVE_EVIDENCE");
    reasons := AddIf(reasons, run.evidenceIds == [], "NO_SERVER_VERIFIED_EVIDENCE");
    reasons := ReadMissing(run, reasons);
  }

  method EvaluateSufficiency(upper: string -> string, run: Run) returns (r: SufficiencyAssessment)
    ensures r.mode == ModeOf(run) && r.level == LevelOf(upper, run)
    ensures r.workflowComplete <==> WorkflowComplete(run)
    ensures r.missing == if !WorkflowComplete(run) then PendingKinds(run.obligations) else []
    ensures r.reasonCodes == SortedSet(ReasonsOf(upper, run))
    ensures r.level.Sufficient? ==> r.reasonCodes == []
  {
    SufficientHasNoReasons(upper, run);
    EmptyElems(SortedSet(ReasonsOf(upper, run)));
    hide Retryable;
    hide RetryBlocked;
    hide ObligationReasons;
    hide RetryReasons;
    hide CoverageReasons;
    hide HardMissing;
    hide VerificationIncomplete;
    hide TimeIncomplete;
    hide Missing;
    hide WorkflowComplete;
    hide Elems;
    hide SortedSet;
    var workflowComplete := WorkflowComplete(run);
    var missing := PendingKinds(run.obligations);
    NothingPending(run);
    RetryIsRefused(upper, run);
    var reasons := ReadObligations(upper, run);
    if RetryNeeded(upper, run) {
      reasons := ReadRetries(upper, run, reasons);
      SortedReasons(reasons);
      assert Elems(reasons) == ReasonsOf(upper, run);
      return SufficiencyAssessment(RetryRequired, RefusalOnly, workflowComplete, Sort(Dedupe(reasons)), missing);
    }
    reasons := ReadCoverage(run, reasons);
    var hardErrors := run.coverage.errorCodes != [];
    var hardIncomplete := VerificationIncomplete(run) || TimeIncomplete(run);
    var hasGaps := run.coverage.partialCodes != [] || run.coverage.timeoutCodes != [] || run.coverage.limitations != []
                   || run.recallDegraded || run.recallIncomplete || !run.coverage.complete
                   || Missing(run, CounterAuthorityResearch) || HardMissing(run) || hardIncomplete;
    SortedReasons(reasons);
    assert !ModeOf(run).Conditional? ==> Elems(reasons) == ReasonsOf(upper, run);
    if !workflowComplete {
      return SufficiencyAssessment(Insufficient, RefusalOnly, false, Sort(Dedupe(reasons)), missing);
    }
    if run.synthetic || run.evidenceIds == [] || hardErrors || HardMissing(run) || hardIncomplete {
      return SufficiencyAssessment(Insufficient, RefusalOnly, true, Sort(Dedupe(reasons)), []);
    }
    if hasGaps {
      reasons := AddIf(reasons, true, "RESEARCH_COVERAGE_QUALIFIED");
      SortedReasons(reasons);
      return SufficiencyAssessment(Qualified, Conditional, true, Sort(Dedupe(reasons)), []);
    }
    return SufficiencyAssessment(Sufficient, Ordinary, true, Sort(Dedupe(reasons)), []);
  }

  lemma SortedReasons(reasons: seq<string>)
    ensures Sort(Dedupe(reasons)) == SortedSet(Elems(reasons))
  {
    DedupeKeeps(reasons);
    SortedSetIsSort(Dedupe(reasons));
  }

  lemma NothingPending(run: Run)
    ensures WorkflowComplete(run) <==> PendingKinds(run.obligations) == []
  {
    PendingKindsEmpty(run.obligations);
  }

  lemma {:induction false} PendingKindsEmpty(obligations: seq<Obligation>)
    ensures PendingKinds(obligations) == [] <==> forall o | o in obligations :: !IsPending(o)
  {
    hide IsPending;
    if obligations != [] {
      var rest, last := obligations[..|obligations| - 1], obligations[|obligations| - 1];
      PendingKindsEmpty(rest);
      assert obligations == rest + [last];
    }
  }

  // ----- Degradation never helps --------------------------------------------------------

  /** Nothing that a run demands is easier in the second: its obligations stay and may be
      un-completed or joined by others, gaps may be added, evidence dropped and checks cleared. */
  ghost predicate Degrades(a: Run, b: Run) {
    && |a.obligations| <= |b.obligations|
    && (forall i | 0 <= i < |a.obligations| ::
          && b.obligations[i].kind == a.obligations[i].kind
          && (a.obligations[i].required ==> b.obligations[i].required)
          && (b.obligations[i].status.Completed? ==> a.obligations[i].status.Completed?))
    && (a.synthetic ==> b.synthetic)
    && Elems(b.evidenceIds) <= Elems(a.evidenceIds)
    && (a.recallDegraded ==> b.recallDegraded) && (a.recallIncomplete ==> b.recallIncomplete)
    && CoverageDegrades(a.coverage, b.coverage)
  }

  ghost predicate CoverageDegrades(a: Coverage, b: Coverage) {
    && (b.law ==> a.law) && (b.judgment ==> a.judgment) && (b.constitutional ==> a.constitutional)
    && (b.counter ==> a.counter) && (b.time ==> a.time) && (b.complete ==> a.complete)
    && Elems(a.limitations) <= Elems(b.limitations) && Elems(a.partialCodes) <= Elems(b.partialCodes)
    && Elems(a.errorCodes) <= Elems(b.errorCodes) && Elems(a.timeoutCodes) <= Elems(b.timeoutCodes)
  }

  lemma MoreCodes(a: seq<string>, b: seq<string>)
    requires Elems(a) <= Elems(b)
    ensures a != [] ==> b != []
    ensures UnsupportedVersion(a) ==> UnsupportedVersion(b)
  {
    hide Contains;
    if a != [] {
      assert a[0] in Elems(a);
    }
    forall code | code in a
      ensures code in b
    {
      assert code in Elems(a);
    }
  }

  lemma FewerChecks(a: Coverage, b: Coverage, kind: Kind)
    requires CoverageDegrades(a, b)
    ensures Checked(b, kind) ==> Checked(a, kind)
  {
    hide Elems;
  }

  lemma ObligationsDegrade(a: Run, b: Run)
    requires Degrades(a, b)
    ensures !WorkflowComplete(a) ==> !WorkflowComplete(b)
    ensures forall kind :: Requires(a, kind) ==> Requires(b, kind)
    ensures HardMissing(a) ==> HardMissing(b)
  {
    hide CoverageDegrades;
    hide Checked;
    forall o | o in a.obligations && Counts(o)
      ensures exists o' :: o' in b.obligations && Counts(o') && o'.kind == o.kind && (IsPending(o) ==> IsPending(o'))
    {
      var i :| 0 <= i < |a.obligations| && a.obligations[i] == o;
      assert b.obligations[i] in b.obligations;
    }
    forall kind
      ensures Checked(b.coverage, kind) ==> Checked(a.coverage, kind)
    {
      FewerChecks(a.coverage, b.coverage, kind);
    }
    hide Degrades;
  }

  /** Worsening a run never raises its answer mode. */
  lemma DegradationNeverHelps(a: Run, b: Run)
    requires Degrades(a, b)
    ensures ModeOf(b).Rank() <= ModeOf(a).Rank()
  {
    ObligationsDegrade(a, b);
    FewerChecks(a.coverage, b.coverage, CounterAuthorityResearch);
    MoreCodes(a.coverage.limitations, b.coverage.limitations);
    MoreCodes(a.coverage.partialCodes, b.coverage.partialCodes);
    MoreCodes(a.coverage.errorCodes, b.coverage.errorCodes);
    MoreCodes(a.coverage.timeoutCodes, b.coverage.timeoutCodes);
    FewerEvidence(b.evidenceIds, a.evidenceIds);
    hide Requires;
    hide HardMissing;
    hide WorkflowComplete;
    hide UnsupportedVersion;
    hide Elems;
  }

  lemma FewerEvidence(a: seq<string>, b: seq<string>)
    requires Elems(a) <= Elems(b)
    ensures b == [] ==> a == []
  {
    MoreCodes(a, b);
  }
}
