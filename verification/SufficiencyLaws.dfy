/** What the evaluated mode and level mean, in terms of the facts a run carries. */
module SufficiencyLaws {
  import opened Collections
  import opened Sorting
  import opened Sufficiency

  /** Some required obligation of the run is of this kind. */
  ghost predicate Demands(run: Run, kind: Kind) {
    exists o | o in run.obligations :: o.required && o.kind == kind
  }

  ghost predicate Mentions(text: string, part: string) {
    exists before, after :: text == before + part + after
  }

  lemma ContainsIsMentions(text: string, part: string)
    ensures Contains(text, part) <==> Mentions(text, part)
  {
    if Contains(text, part) {
      var i :| 0 <= i <= |text| && OccursAt(text, part, i);
      assert text == text[..i] + part + text[i + |part|..];
    }
    if before, after :| text == before + part + after {
      assert OccursAt(text, part, |before|);
    }
  }

  /** Every required obligation but the final validation is completed. */
  ghost predicate Finished(run: Run) {
    forall o | o in run.obligations && o.required && o.kind != FinalAnswerValidation :: o.status == Completed
  }

  /** Each flag that a required obligation needs is set. */
  ghost predicate Covered(run: Run) {
    && (Demands(run, LawResearch) ==> run.coverage.law)
    && (Demands(run, JudgmentRecall) ==> run.coverage.judgment)
    && (Demands(run, JudgmentOfficialVerification) ==> run.coverage.judgment && !run.recallIncomplete)
    && (Demands(run, ConstitutionalResearch) ==> run.coverage.constitutional)
    && (Demands(run, LegalTimeContext) ==>
          && run.coverage.time
          && forall code | code in run.coverage.limitations + run.coverage.partialCodes ::
               !Mentions(code, "HISTORICAL_LAW_VERSION_UNSUPPORTED"))
  }

  lemma RequiresIsDemands(run: Run, kind: Kind)
    requires kind != FinalAnswerValidation
    ensures Requires(run, kind) <==> Demands(run, kind)
  {
  }

  lemma FinishedIsComplete(run: Run)
    ensures WorkflowComplete(run) <==> Finished(run)
  {
  }

  lemma UnsupportedMeans(codes: seq<string>)
    ensures UnsupportedVersion(codes) <==> exists code | code in codes :: Mentions(code, "HISTORICAL_LAW_VERSION_UNSUPPORTED")
  {
    forall code
      ensures Contains(code, "HISTORICAL_LAW_VERSION_UNSUPPORTED") <==> Mentions(code, "HISTORICAL_LAW_VERSION_UNSUPPORTED")
    {
      ContainsIsMentions(code, "HISTORICAL_LAW_VERSION_UNSUPPORTED");
    }
    hide Contains;
    hide Mentions;
  }

  lemma HardMissingMeans(run: Run)
    ensures !HardMissing(run) <==>
              && (Demands(run, LawResearch) ==> run.coverage.law)
              && (Demands(run, JudgmentRecall) ==> run.coverage.judgment)
              && (Demands(run, JudgmentOfficialVerification) ==> run.coverage.judgment)
              && (Demands(run, ConstitutionalResearch) ==> run.coverage.constitutional)
              && (Demands(run, LegalTimeContext) ==> run.coverage.time)
  {
    if o :| o in run.obligations && HardGap(run, o) {
      assert Demands(run, o.kind);
    }
    if kind: Kind :| Demands(run, kind) && kind != CounterAuthorityResearch && !Checked(run.coverage, kind) {
      var o :| o in run.obligations && o.required && o.kind == kind;
      assert HardGap(run, o);
    }
    hide Demands;
    hide HardMissing;
  }

  // ----- The mode -----------------------------------------------------------------------

  /** The run supports an answer: it is finished, live, free of errors and timeouts, has evidence, and
      everything its obligations need is covered. */
  ghost predicate Answerable(run: Run) {
    && Finished(run) && Covered(run)
    && run.coverage.timeoutCodes == [] && run.coverage.errorCodes == []
    && !run.synthetic && run.evidenceIds != []
  }

  /** Nothing about the run is partial, limited or degraded, and a demanded search for
      counter-authority has been made. */
  ghost predicate Unreserved(run: Run) {
    && run.coverage.complete && run.coverage.partialCodes == [] && run.coverage.limitations == []
    && !run.recallDegraded && !run.recallIncomplete
    && (Demands(run, CounterAuthorityResearch) ==> run.coverage.counter)
  }

  lemma RefusalMeans(run: Run)
    ensures ModeOf(run).RefusalOnly? <==> !Answerable(run)
  {
    FinishedIsComplete(run);
    HardMissingMeans(run);
    RequiresIsDemands(run, JudgmentOfficialVerification);
    RequiresIsDemands(run, LegalTimeContext);
    UnsupportedMeans(run.coverage.limitations);
    UnsupportedMeans(run.coverage.partialCodes);
    UnsupportedMeans(run.coverage.errorCodes);
    hide Mentions;
    hide UnsupportedVersion;
    hide HardMissing;
    hide Demands;
    hide Requires;
    hide Finished;
    hide WorkflowComplete;
    hide HasGaps;
  }

  /** A run that supports no answer is refused, and one without reservation is answered ordinarily. */
  lemma ModeMeans(run: Run)
    ensures ModeOf(run) == if !Answerable(run) then RefusalOnly else if !Unreserved(run) then Conditional else Ordinary
  {
    RefusalMeans(run);
    RequiresIsDemands(run, CounterAuthorityResearch);
    hide Answerable;
    hide Demands;
    hide Requires;
    hide Refused;
  }

  /** Modes are ranked strictly: refusal lies below every other mode, ordinary above. */
  lemma ModesAreRanked(a: Mode, b: Mode)
    ensures a.Rank() <= b.Rank() <==> a == b || a == RefusalOnly || b == Ordinary
  {
  }

  // ----- Flags that nobody needs --------------------------------------------------------

  /** The runs agree but for coverage flags that no required obligation needs. */
  ghost predicate SameWhereNeeded(a: Run, b: Run) {
    && b == a.(coverage := b.coverage)
    && b.coverage == a.coverage.(law := b.coverage.law, judgment := b.coverage.judgment, constitutional := b.coverage.constitutional,
                                 counter := b.coverage.counter, time := b.coverage.time)
    && (Demands(a, LawResearch) ==> b.coverage.law == a.coverage.law)
    && (Demands(a, JudgmentRecall) || Demands(a, JudgmentOfficialVerification) ==> b.coverage.judgment == a.coverage.judgment)
    && (Demands(a, ConstitutionalResearch) ==> b.coverage.constitutional == a.coverage.constitutional)
    && (Demands(a, CounterAuthorityResearch) ==> b.coverage.counter == a.coverage.counter)
    && (Demands(a, LegalTimeContext) ==> b.coverage.time == a.coverage.time)
  }

  /** Setting or clearing a flag that no required obligation needs changes nothing: neither the mode
      nor the level nor a reason. */
  lemma UnneededFlagsAreFree(upper: string -> string, a: Run, b: Run)
    requires SameWhereNeeded(a, b)
    ensures ModeOf(b) == ModeOf(a) && LevelOf(upper, b) == LevelOf(upper, a)
    ensures ReasonsOf(upper, b) == ReasonsOf(upper, a)
  {
    SameMode(a, b);
    SameMissing(a, b);
    SameRetry(upper, a, b);
    hide ModeOf;
    hide RetryNeeded;
    hide ObligationReasons;
    hide RetryReasons;
    hide MissingReasons;
    hide Demands;
  }

  lemma SameRetry(upper: string -> string, a: Run, b: Run)
    requires b == a.(coverage := b.coverage)
    requires b.coverage.timeoutCodes == a.coverage.timeoutCodes && b.coverage.errorCodes == a.coverage.errorCodes
    ensures RetryNeeded(upper, b) == RetryNeeded(upper, a)
    ensures ObligationReasons(upper, b) == ObligationReasons(upper, a)
    ensures RetryReasons(upper, b) == RetryReasons(upper, a)
  {
    hide Retryable;
    hide RetryBlocked;
    hide RetryableObligation;
    hide KindValue;
    hide IsPending;
  }

  lemma SameMissing(a: Run, b: Run)
    requires SameWhereNeeded(a, b)
    ensures MissingReasons(b) == MissingReasons(a)
  {
    SameHardReasons(a, b);
    SameGaps(a, b);
    SameIncomplete(a, b);
    hide SameWhereNeeded;
    hide VerificationIncomplete;
    hide TimeIncomplete;
    hide HardGap;
    hide Missing;
    hide KindValue;
    hide HardReasons;
  }

  lemma SameHardReasons(a: Run, b: Run)
    requires SameWhereNeeded(a, b)
    ensures HardReasons(b) == HardReasons(a)
  {
    SameGaps(a, b);
    assert b.obligations == a.obligations;
    hide SameWhereNeeded;
    hide HardGap;
    hide KindValue;
  }

  lemma SameIncomplete(a: Run, b: Run)
    requires SameWhereNeeded(a, b)
    ensures VerificationIncomplete(b) == VerificationIncomplete(a) && TimeIncomplete(b) == TimeIncomplete(a)
  {
    hide UnsupportedVersion;
    hide Demands;
  }

  lemma SameGaps(a: Run, b: Run)
    requires SameWhereNeeded(a, b)
    ensures forall o | o in a.obligations :: HardGap(b, o) <==> HardGap(a, o)
    ensures Missing(b, CounterAuthorityResearch) <==> Missing(a, CounterAuthorityResearch)
  {
    forall o | o in a.obligations
      ensures HardGap(b, o) <==> HardGap(a, o)
    {
      if Counts(o) {
        assert Demands(a, o.kind);
        hide Demands;
      }
    }
    RequiresIsDemands(a, CounterAuthorityResearch);
    assert Requires(b, CounterAuthorityResearch) == Requires(a, CounterAuthorityResearch);
    hide Demands;
    hide Requires;
  }

  lemma SameMode(a: Run, b: Run)
    requires SameWhereNeeded(a, b)
    ensures ModeOf(b) == ModeOf(a)
  {
    SameGaps(a, b);
    assert WorkflowComplete(b) == WorkflowComplete(a);
    assert HardMissing(b) == HardMissing(a);
    hide WorkflowComplete;
    hide HardMissing;
    hide Missing;
    hide Demands;
    hide UnsupportedVersion;
  }

  // ----- The level ----------------------------------------------------------------------

  /** The text tells of a condition that may pass; `upper` is the upper-casing of text. */
  ghost predicate Passing(upper: string -> string, text: string) {
    exists word | word in {"UNAVAILABLE", "TIMEOUT", "TEMPORARY", "RATE_LIMIT", "RETRY"} :: Mentions(upper(text), word)
  }

  lemma RetryableIsPassing(upper: string -> string, code: string)
    ensures Retryable(upper, code) <==> Passing(upper, code)
  {
    var words := {"UNAVAILABLE", "TIMEOUT", "TEMPORARY", "RATE_LIMIT", "RETRY"};
    forall word
      ensures Contains(upper(code), word) <==> Mentions(upper(code), word)
    {
      ContainsIsMentions(upper(code), word);
    }
    hide Contains;
    hide Mentions;
    assert forall word | word in words :: Mentions(upper(code), word) ==> Passing(upper, code);
  }

  /** A required obligation is blocked by something that may pass. */
  ghost predicate WaitsToRetry(upper: string -> string, o: Obligation) {
    && o.required && o.kind != FinalAnswerValidation && o.status == Blocked
    && (Passing(upper, o.reason) || Passing(upper, if o.blockerCode.Some? then o.blockerCode.value else ""))
  }

  /** A retry is asked for exactly after a timeout, an error that may pass, or a required obligation
      blocked by one; otherwise the level follows the mode. */
  lemma LevelMeans(upper: string -> string, run: Run)
    ensures LevelOf(upper, run) == RetryRequired <==>
              || run.coverage.timeoutCodes != []
              || (exists code | code in run.coverage.errorCodes :: Passing(upper, code))
              || exists o | o in run.obligations :: WaitsToRetry(upper, o)
    ensures LevelOf(upper, run) != RetryRequired ==>
              && (LevelOf(upper, run) == Sufficient <==> ModeOf(run) == Ordinary)
              && (LevelOf(upper, run) == Qualified <==> ModeOf(run) == Conditional)
  {
    forall code
      ensures Retryable(upper, code) <==> Passing(upper, code)
    {
      RetryableIsPassing(upper, code);
    }
    hide Retryable;
    hide Passing;
    hide ModeOf;
  }

  // ----- The reasons --------------------------------------------------------------------

  lemma KindNamesDiffer(a: Kind, b: Kind)
    requires KindValue(a) == KindValue(b)
    ensures a == b
  {
    assert KindValue(a)[0] == KindValue(b)[0] && KindValue(a)[1] == KindValue(b)[1] && |KindValue(a)| == |KindValue(b)|;
  }

  lemma SamePrefix(prefix: string, a: string, b: string)
    requires prefix + a == prefix + b
    ensures a == b
  {
    assert (prefix + a)[|prefix|..] == a && (prefix + b)[|prefix|..] == b;
  }

  /** A required obligation of this kind is blocked for good. */
  ghost predicate BlockedForGood(upper: string -> string, run: Run, kind: Kind) {
    exists o | o in run.obligations ::
      o.kind == kind && o.required && o.kind != FinalAnswerValidation && o.status == Blocked && !WaitsToRetry(upper, o)
  }

  /** The text begins with a word that starts with these three letters. */
  ghost predicate Heads(text: string, a: char, b: char, c: char) {
    |text| > 2 && text[0] == a && text[1] == b && text[2] == c
  }

  lemma PrefixHeads(prefix: string, code: string)
    requires |prefix| > 2
    ensures Heads(prefix + code, prefix[0], prefix[1], prefix[2])
  {
  }

  lemma BlockedPrefixHeads(code: string)
    ensures Heads("NON_RETRYABLE_BLOCKED:" + code, 'N', 'O', 'N')
  {
  }

  lemma MissingPrefixHeads(code: string)
    ensures var reason := "REQUIRED_COVERAGE_MISSING:" + code; Heads(reason, 'R', 'E', 'Q') && |reason| > 18 && reason[18] == 'M'
  {
  }

  ghost function BlockedReasons(upper: string -> string, run: Run): set<string> {
    set o | o in run.obligations && IsPending(o) && o.status.Blocked? && !RetryableObligation(upper, o) ::
      "NON_RETRYABLE_BLOCKED:" + KindValue(o.kind)
  }

  lemma BlockedHeads(upper: string -> string, run: Run, reason: string)
    ensures reason in BlockedReasons(upper, run) ==> Heads(reason, 'N', 'O', 'N')
  {
    hide KindValue;
    hide IsPending;
    hide RetryableObligation;
    if o :| o in run.obligations && reason == "NON_RETRYABLE_BLOCKED:" + KindValue(o.kind) {
      BlockedPrefixHeads(KindValue(o.kind));
    }
    hide Heads;
  }

  lemma ObligationParts(upper: string -> string, run: Run)
    ensures BlockedReasons(upper, run) <= ObligationReasons(upper, run)
    ensures ObligationReasons(upper, run) - BlockedReasons(upper, run) <=
            {"RESEARCH_REQUIRED_OBLIGATION_PENDING", "RESEARCH_REQUIRED_OBLIGATION_BLOCKED"}
  {
    hide KindValue;
    hide IsPending;
    hide RetryableObligation;
    hide WorkflowComplete;
  }

  lemma ObligationHeads(upper: string -> string, run: Run, reason: string)
    ensures reason in BlockedReasons(upper, run) ==> reason in ObligationReasons(upper, run)
    ensures reason in ObligationReasons(upper, run) && reason !in BlockedReasons(upper, run) ==> Heads(reason, 'R', 'E', 'S')
  {
    ObligationParts(upper, run);
    hide ObligationReasons;
    hide BlockedReasons;
    if reason in ObligationReasons(upper, run) - BlockedReasons(upper, run) {
      assert reason == "RESEARCH_REQUIRED_OBLIGATION_" + "PENDING" || reason == "RESEARCH_REQUIRED_OBLIGATION_" + "BLOCKED";
      PrefixHeads("RESEARCH_REQUIRED_OBLIGATION_", "PENDING");
      PrefixHeads("RESEARCH_REQUIRED_OBLIGATION_", "BLOCKED");
    }
  }

  lemma RetryHeads(upper: string -> string, run: Run, reason: string)
    ensures reason in RetryReasons(upper, run) ==> Heads(reason, 'R', 'E', 'T')
  {
    hide KindValue;
    hide RetryBlocked;
    hide Retryable;
    if reason in RetryReasons(upper, run) {
      var code :| reason == "RETRY_REQUIRED:" + code;
      PrefixHeads("RETRY_REQUIRED:", code);
    }
  }

  lemma HardHeads(run: Run, reason: string)
    ensures reason in HardReasons(run) ==> Heads(reason, 'R', 'E', 'Q') && |reason| > 18 && reason[18] == 'M'
  {
    hide KindValue;
    hide HardGap;
    if o :| o in run.obligations && reason == "REQUIRED_COVERAGE_MISSING:" + KindValue(o.kind) {
      MissingPrefixHeads(KindValue(o.kind));
    }
    hide Heads;
  }

  lemma IncompletePrefixHeads(code: string)
    ensures var reason := "REQUIRED_COVERAGE_INCOMPLETE:" + code; Heads(reason, 'R', 'E', 'Q') && |reason| > 18 && reason[18] == 'I'
  {
  }

  lemma VerificationReason()
    ensures "REQUIRED_COVERAGE_INCOMPLETE:judgment_official_verification"
            == "REQUIRED_COVERAGE_INCOMPLETE:" + "judgment_official_verification"
  {
  }

  lemma TimeReason()
    ensures "REQUIRED_COVERAGE_INCOMPLETE:legal_time_context" == "REQUIRED_COVERAGE_INCOMPLETE:" + "legal_time_context"
  {
  }

  lemma MissingHeads(run: Run, reason: string)
    requires reason in MissingReasons(run) && reason !in HardReasons(run)
    ensures Heads(reason, 'S', 'O', 'F') || (Heads(reason, 'R', 'E', 'Q') && |reason| > 18 && reason[18] == 'I')
  {
    hide HardReasons;
    hide Missing;
    hide VerificationIncomplete;
    hide TimeIncomplete;
    VerificationReason();
    TimeReason();
    IncompletePrefixHeads("judgment_official_verification");
    IncompletePrefixHeads("legal_time_context");
  }

  lemma ErrorHeads(codes: seq<string>, reason: string)
    ensures reason in Prefixed("COVERAGE_ERROR:", codes) ==> Heads(reason, 'C', 'O', 'V')
  {
    if code :| code in codes && reason == "COVERAGE_ERROR:" + code {
      PrefixHeads("COVERAGE_ERROR:", code);
    }
  }

  lemma CoverageHeads(run: Run, reason: string)
    ensures reason in HardReasons(run) ==> reason in CoverageReasons(run)
    ensures reason in CoverageReasons(run) && reason !in MissingReasons(run) ==>
              Heads(reason, 'C', 'O', 'V') || Heads(reason, 'S', 'Y', 'N') || Heads(reason, 'N', 'O', '_')
  {
    HardAreMissing(run);
    hide MissingReasons;
    hide HardReasons;
    ErrorHeads(run.coverage.errorCodes, reason);
    hide Prefixed;
  }

  lemma HardAreMissing(run: Run)
    ensures HardReasons(run) <= MissingReasons(run)
  {
    hide HardReasons;
    hide VerificationIncomplete;
    hide TimeIncomplete;
    hide Missing;
  }

  /** Which reasons name a blocked kind or a missing check. */
  lemma NamingReasons(upper: string -> string, run: Run, reason: string)
    ensures Heads(reason, 'N', 'O', 'N') ==> (reason in ReasonsOf(upper, run) <==> reason in BlockedReasons(upper, run))
    ensures Heads(reason, 'R', 'E', 'Q') && |reason| > 18 && reason[18] == 'M' ==>
              (reason in ReasonsOf(upper, run) <==> !RetryNeeded(upper, run) && reason in HardReasons(run))
    ensures Heads(reason, 'R', 'E', 'Q') && |reason| > 18 && reason[18] == 'I' ==>
              (reason in ReasonsOf(upper, run) <==> !RetryNeeded(upper, run) && reason in MissingReasons(run))
  {
    BlockedHeads(upper, run, reason);
    ObligationHeads(upper, run, reason);
    RetryHeads(upper, run, reason);
    CoverageHeads(run, reason);
    HardHeads(run, reason);
    if reason in MissingReasons(run) && reason !in HardReasons(run) {
      MissingHeads(run, reason);
    }
    hide MissingReasons;
    hide BlockedReasons;
    hide ObligationReasons;
    hide RetryReasons;
    hide CoverageReasons;
    hide HardReasons;
    hide RetryNeeded;
    hide ModeOf;
  }

  lemma WaitingIsRetryBlocked(upper: string -> string, o: Obligation)
    ensures RetryBlocked(upper, o) <==> WaitsToRetry(upper, o)
  {
    RetryableIsPassing(upper, o.reason);
    RetryableIsPassing(upper, if o.blockerCode.Some? then o.blockerCode.value else "");
    hide Retryable;
    hide Passing;
  }

  lemma BlockedReasonsMean(upper: string -> string, run: Run, kind: Kind)
    requires kind != FinalAnswerValidation
    ensures "NON_RETRYABLE_BLOCKED:" + KindValue(kind) in BlockedReasons(upper, run) <==> BlockedForGood(upper, run, kind)
  {
    hide KindValue;
    hide WaitsToRetry;
    hide RetryableObligation;
    var reason := "NON_RETRYABLE_BLOCKED:" + KindValue(kind);
    if o :| o in run.obligations && IsPending(o) && o.status.Blocked? && !RetryableObligation(upper, o)
            && reason == "NON_RETRYABLE_BLOCKED:" + KindValue(o.kind) {
      SamePrefix("NON_RETRYABLE_BLOCKED:", KindValue(o.kind), KindValue(kind));
      KindNamesDiffer(o.kind, kind);
      WaitingIsRetryBlocked(upper, o);
    }
    if o :| o in run.obligations && o.kind == kind && o.required && o.status == Blocked && !WaitsToRetry(upper, o) {
      WaitingIsRetryBlocked(upper, o);
    }
  }

  ghost function BlockedReason(name: string): string {
    "NON_RETRYABLE_BLOCKED:" + name
  }

  lemma BlockedIsNamed(upper: string -> string, run: Run, kind: Kind)
    requires kind != FinalAnswerValidation
    ensures BlockedReason(KindValue(kind)) in ReasonsOf(upper, run) <==> BlockedForGood(upper, run, kind)
  {
    BlockedReasonsMean(upper, run, kind);
    hide KindValue;
    hide BlockedForGood;
    hide BlockedReasons;
    hide ReasonsOf;
    BlockedPrefixHeads(KindValue(kind));
    hide Heads;
    var reason := "NON_RETRYABLE_BLOCKED:" + KindValue(kind);
    NamingReasons(upper, run, reason);
  }

  lemma KindNames()
    ensures KindValue(ExternalPlanReview) == "external_plan_review"
    ensures KindValue(QueryUnderstanding) == "query_understanding"
    ensures KindValue(PrivacyScreen) == "privacy_screen"
    ensures KindValue(LawResearch) == "law_research"
    ensures KindValue(JudgmentRecall) == "judgment_recall"
    ensures KindValue(JudgmentOfficialVerification) == "judgment_official_verification"
    ensures KindValue(ConstitutionalResearch) == "constitutional_research"
    ensures KindValue(CounterAuthorityResearch) == "counter_authority"
    ensures KindValue(LegalTimeContext) == "legal_time_context"
    ensures KindValue(EvidenceSufficiency) == "evidence_sufficiency"
  {
  }

  /** Each kind of obligation that is blocked for good is reported by its own name, and no other is. */
  lemma BlockedKindsAreNamed(upper: string -> string, run: Run)
    ensures BlockedReason("external_plan_review") in ReasonsOf(upper, run) <==> BlockedForGood(upper, run, ExternalPlanReview)
    ensures BlockedReason("query_understanding") in ReasonsOf(upper, run) <==> BlockedForGood(upper, run, QueryUnderstanding)
    ensures BlockedReason("privacy_screen") in ReasonsOf(upper, run) <==> BlockedForGood(upper, run, PrivacyScreen)
    ensures BlockedReason("law_research") in ReasonsOf(upper, run) <==> BlockedForGood(upper, run, LawResearch)
    ensures BlockedReason("judgment_recall") in ReasonsOf(upper, run) <==> BlockedForGood(upper, run, JudgmentRecall)
    ensures BlockedReason("judgment_official_verification") in ReasonsOf(upper, run) <==> BlockedForGood(upper, run, JudgmentOfficialVerification)
    ensures BlockedReason("constitutional_research") in ReasonsOf(upper, run) <==> BlockedForGood(upper, run, ConstitutionalResearch)
    ensures BlockedReason("counter_authority") in ReasonsOf(upper, run) <==> BlockedForGood(upper, run, CounterAuthorityResearch)
    ensures BlockedReason("legal_time_context") in ReasonsOf(upper, run) <==> BlockedForGood(upper, run, LegalTimeContext)
    ensures BlockedReason("evidence_sufficiency") in ReasonsOf(upper, run) <==> BlockedForGood(upper, run, EvidenceSufficiency)
  {
    KindNames();
    hide KindValue;
    hide BlockedReason;
    hide ReasonsOf;
    hide BlockedForGood;
    BlockedIsNamed(upper, run, ExternalPlanReview);
    BlockedIsNamed(upper, run, QueryUnderstanding);
    BlockedIsNamed(upper, run, PrivacyScreen);
    BlockedIsNamed(upper, run, LawResearch);
    BlockedIsNamed(upper, run, JudgmentRecall);
    BlockedIsNamed(upper, run, JudgmentOfficialVerification);
    BlockedIsNamed(upper, run, ConstitutionalResearch);
    BlockedIsNamed(upper, run, CounterAuthorityResearch);
    BlockedIsNamed(upper, run, LegalTimeContext);
    BlockedIsNamed(upper, run, EvidenceSufficiency);
  }

  lemma HardReasonsMean(run: Run, kind: Kind)
    requires kind != FinalAnswerValidation
    ensures "REQUIRED_COVERAGE_MISSING:" + KindValue(kind) in HardReasons(run) <==>
              kind != CounterAuthorityResearch && Demands(run, kind) && !Checked(run.coverage, kind)
  {
    hide Checked;
    hide KindValue;
    var reason := "REQUIRED_COVERAGE_MISSING:" + KindValue(kind);
    if o :| o in run.obligations && HardGap(run, o) && reason == "REQUIRED_COVERAGE_MISSING:" + KindValue(o.kind) {
      SamePrefix("REQUIRED_COVERAGE_MISSING:", KindValue(o.kind), KindValue(kind));
      KindNamesDiffer(o.kind, kind);
    }
  }

  ghost function MissingReason(name: string): string {
    "REQUIRED_COVERAGE_MISSING:" + name
  }

  lemma MissingIsNamed(upper: string -> string, run: Run, kind: Kind)
    requires kind != FinalAnswerValidation
    ensures MissingReason(KindValue(kind)) in ReasonsOf(upper, run) <==>
              !RetryNeeded(upper, run) && kind != CounterAuthorityResearch && Demands(run, kind) && !Checked(run.coverage, kind)
  {
    HardReasonsMean(run, kind);
    hide Checked;
    hide KindValue;
    hide Demands;
    hide HardReasons;
    hide ReasonsOf;
    hide RetryNeeded;
    MissingPrefixHeads(KindValue(kind));
    hide Heads;
    var reason := "REQUIRED_COVERAGE_MISSING:" + KindValue(kind);
    NamingReasons(upper, run, reason);
  }

  /** Without a retry to wait for, each missing check is reported by the name of the kind that needs
      it, and no other is. */
  lemma MissingChecksAreNamed(upper: string -> string, run: Run)
    requires LevelOf(upper, run) != RetryRequired
    ensures MissingReason("law_research") in ReasonsOf(upper, run) <==> Demands(run, LawResearch) && !run.coverage.law
    ensures MissingReason("judgment_recall") in ReasonsOf(upper, run) <==>
              Demands(run, JudgmentRecall) && !run.coverage.judgment
    ensures MissingReason("judgment_official_verification") in ReasonsOf(upper, run) <==>
              Demands(run, JudgmentOfficialVerification) && !run.coverage.judgment
    ensures MissingReason("constitutional_research") in ReasonsOf(upper, run) <==>
              Demands(run, ConstitutionalResearch) && !run.coverage.constitutional
    ensures MissingReason("legal_time_context") in ReasonsOf(upper, run) <==>
              Demands(run, LegalTimeContext) && !run.coverage.time
  {
    assert !RetryNeeded(upper, run);
    CheckedKinds(run.coverage);
    hide Checked;
    hide ModeOf;
    hide LevelOf;
    hide KindValue;
    hide MissingReason;
    MissingIsNamed(upper, run, LawResearch);
    MissingIsNamed(upper, run, JudgmentRecall);
    MissingIsNamed(upper, run, JudgmentOfficialVerification);
    MissingIsNamed(upper, run, ConstitutionalResearch);
    MissingIsNamed(upper, run, LegalTimeContext);
    hide ReasonsOf;
    hide Demands;
    hide RetryNeeded;
  }

  lemma CheckedKinds(c: Coverage)
    ensures KindValue(LawResearch) == "law_research" && Checked(c, LawResearch) == c.law
    ensures KindValue(JudgmentRecall) == "judgment_recall" && Checked(c, JudgmentRecall) == c.judgment
    ensures KindValue(JudgmentOfficialVerification) == "judgment_official_verification"
    ensures Checked(c, JudgmentOfficialVerification) == c.judgment
    ensures KindValue(ConstitutionalResearch) == "constitutional_research" && Checked(c, ConstitutionalResearch) == c.constitutional
    ensures KindValue(LegalTimeContext) == "legal_time_context" && Checked(c, LegalTimeContext) == c.time
  {
  }

  ghost function IncompleteReason(name: string): string {
    "REQUIRED_COVERAGE_INCOMPLETE:" + name
  }

  lemma IncompleteAre(run: Run)
    ensures IncompleteReason("judgment_official_verification") in MissingReasons(run) <==> VerificationIncomplete(run)
    ensures IncompleteReason("legal_time_context") in MissingReasons(run) <==> TimeIncomplete(run)
  {
    VerificationReason();
    TimeReason();
    var a, b := IncompleteReason("judgment_official_verification"), IncompleteReason("legal_time_context");
    IncompletePrefixHeads("judgment_official_verification");
    IncompletePrefixHeads("legal_time_context");
    HardHeads(run, a);
    HardHeads(run, b);
    assert a[29] == 'j' && b[29] == 'l';
    assert a[0] == 'R' && b[0] == 'R' && "SOFT_COVERAGE_MISSING:counter_authority"[0] == 'S';
    hide VerificationIncomplete;
    hide TimeIncomplete;
    hide HardReasons;
    hide Missing;
    hide Heads;
  }

  /** Without a retry to wait for, verification that was left incomplete is reported exactly when it was
      demanded, and legal time exactly when it was demanded and some code mentions a version of the law
      that cannot be had. */
  lemma IncompleteChecksAreNamed(upper: string -> string, run: Run)
    requires LevelOf(upper, run) != RetryRequired
    ensures IncompleteReason("judgment_official_verification") in ReasonsOf(upper, run) <==>
              Demands(run, JudgmentOfficialVerification) && run.recallIncomplete
    ensures IncompleteReason("legal_time_context") in ReasonsOf(upper, run) <==>
              && Demands(run, LegalTimeContext)
              && exists code | code in run.coverage.limitations + run.coverage.partialCodes + run.coverage.errorCodes ::
                   Mentions(code, "HISTORICAL_LAW_VERSION_UNSUPPORTED")
  {
    assert !RetryNeeded(upper, run);
    hide ModeOf;
    hide LevelOf;
    IncompleteAre(run);
    IncompletePrefixHeads("judgment_official_verification");
    IncompletePrefixHeads("legal_time_context");
    NamingReasons(upper, run, IncompleteReason("judgment_official_verification"));
    NamingReasons(upper, run, IncompleteReason("legal_time_context"));
    hide IncompleteReason;
    hide Heads;
    hide ReasonsOf;
    hide MissingReasons;
    hide RetryNeeded;
    RequiresIsDemands(run, JudgmentOfficialVerification);
    RequiresIsDemands(run, LegalTimeContext);
    UnsupportedMeans(run.coverage.limitations);
    UnsupportedMeans(run.coverage.partialCodes);
    UnsupportedMeans(run.coverage.errorCodes);
    hide Mentions;
    hide UnsupportedVersion;
    hide Demands;
    hide Requires;
  }
}
