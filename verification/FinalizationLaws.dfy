/** What building and validating a finalization contract amount to, end to end. */
module FinalizationLaws {
  import opened Collections
  import opened Sorting
  import opened Snapshot
  import opened Sufficiency
  import opened SufficiencyLaws
  import opened Finalization

  // ----- The posture built from a run ---------------------------------------------------

  /** Receipts assessed against themselves: missing, healthy, or unusable. */
  lemma OwnReceipts(receipts: seq<Receipt>, now: int)
    ensures StatusOf(receipts, Some(receipts), now).LegacyNoReceipt? <==> receipts == []
    ensures StatusOf(receipts, Some(receipts), now).Consistent? <==> receipts != [] && Reliable(receipts, now)
  {
    ConsistentMeans(receipts, Some(receipts), now);
    hide Ambiguous;
    hide Distinct;
    hide AllCurrent;
    hide OneGeneration;
  }

  /** The facts a run gives, one by one. */
  lemma FactsAre(upper: string -> string, run: Run, receipts: seq<Receipt>, supportUnsafe: bool, privacyDenied: bool, now: int)
    ensures var f := FactsOf(upper, run, receipts, supportUnsafe, privacyDenied);
            && (f.blockers == [] <==> run.blockers == [])
            && WithinServer(f.sources, f.serverSources) && WithinServer(f.evidence, f.serverEvidence)
            && f.workflowComplete == WorkflowComplete(run) && f.level == LevelOf(upper, run)
            && f.sources == run.sourceIds && f.evidence == run.evidenceIds && (f.evidenceAvailable <==> run.evidenceIds != [])
            && f.pendingSupport == [] && f.pendingLookups == []
            && (ReceiptsMissing(f, now) <==> receipts == [])
            && (ReceiptsConsistent(f, now) <==> receipts != [] && Reliable(receipts, now))
            && f.supportUnsafe == supportUnsafe && f.privacyDenied == privacyDenied
            && f.coverageComplete == f.authorityComplete == run.coverage.complete
            && (f.timeComplete <==> (Requires(run, LegalTimeContext) ==> run.coverage.time))
            && f.counter == CounterGateOf(run) && !f.absence.requested
  {
    hide Reliable;
    hide StatusOf;
    hide ReasonsOf;
    hide SortedSet;
    hide LevelOf;
    hide ModeOf;
    hide Elems;
    hide WorkflowComplete;
    hide CounterGateOf;
    hide PendingKinds;
    hide Requires;
    OwnReceipts(receipts, now);
    assert RunBlockers(run) == [] <==> run.blockers == [];
    hide RunBlockers;
  }

  lemma BlockingFromRun(upper: string -> string, run: Run, receipts: seq<Receipt>, supportUnsafe: bool, privacyDenied: bool, now: int)
    ensures var f := FactsOf(upper, run, receipts, supportUnsafe, privacyDenied);
            Blocking(f, now) <==>
              || !Answerable(run) || run.blockers != []
              || (receipts != [] && !Reliable(receipts, now))
              || supportUnsafe || privacyDenied
  {
    assert !Refused(run) ==> WorkflowComplete(run) && run.evidenceIds != [];
    RefusalMeans(run);
    hide Answerable;
    hide FactsOf;
    hide Reliable;
    hide WithinServer;
    hide ReceiptsMissing;
    hide ReceiptsConsistent;
    hide RetryNeeded;
    hide WorkflowComplete;
    hide CounterGateOf;
    hide Requires;
    hide Refused;
    hide HasGaps;
    FactsAre(upper, run, receipts, supportUnsafe, privacyDenied, now);
    RetryIsRefused(upper, run);
  }

  /** Only a run that is sufficient by itself, unblocked, sourced, with its counter-authority
      coverage not withdrawn and with healthy receipts, gets the ordinary posture. */
  lemma OrdinaryFromRun(upper: string -> string, run: Run, receipts: seq<Receipt>, supportUnsafe: bool, privacyDenied: bool, now: int)
    ensures ModeFor(FactsOf(upper, run, receipts, supportUnsafe, privacyDenied), now).Ordinary? <==>
              && Answerable(run) && Unreserved(run) && run.blockers == [] && run.sourceIds != []
              && (Demands(run, CounterAuthorityResearch) ==> run.coverage.counterComplete != Some(false))
              && receipts != [] && Reliable(receipts, now)
              && !supportUnsafe && !privacyDenied
  {
    hide FactsOf;
    hide Reliable;
    hide WithinServer;
    hide ReceiptsMissing;
    hide ReceiptsConsistent;
    hide RetryNeeded;
    hide WorkflowComplete;
    hide Requires;
    hide Refused;
    hide HasGaps;
    hide Blocking;
    FactsAre(upper, run, receipts, supportUnsafe, privacyDenied, now);
    BlockingFromRun(upper, run, receipts, supportUnsafe, privacyDenied, now);
    RetryIsRefused(upper, run);
    ModeMeans(run);
    RequiresIsDemands(run, CounterAuthorityResearch);
    RequiresIsDemands(run, LegalTimeContext);
    hide Finished;
    hide Demands;
  }

  /** The posture never exceeds the evaluated mode. */
  lemma PostureNeverUpgrades(upper: string -> string, run: Run, receipts: seq<Receipt>, supportUnsafe: bool, privacyDenied: bool, now: int)
    ensures ModeFor(FactsOf(upper, run, receipts, supportUnsafe, privacyDenied), now).Rank() <= ModeOf(run).Rank()
  {
    BlockingFromRun(upper, run, receipts, supportUnsafe, privacyDenied, now);
    OrdinaryFromRun(upper, run, receipts, supportUnsafe, privacyDenied, now);
    ModeMeans(run);
    hide Answerable;
    hide Unreserved;
    hide Demands;
    hide ModeOf;
    hide FactsOf;
    hide Blocking;
    hide Unqualified;
    hide Reliable;
  }

  /** Nor does worsening a run ever raise the posture. */
  lemma PostureDegrades(upper: string -> string, a: Run, b: Run, receipts: seq<Receipt>, supportUnsafe: bool, privacyDenied: bool, now: int)
    requires Degrades(a, b) && Elems(b.sourceIds) <= Elems(a.sourceIds) && (b.blockers == [] ==> a.blockers == [])
    requires a.coverage.counterComplete == Some(false) ==> b.coverage.counterComplete == Some(false)
    ensures ModeFor(FactsOf(upper, b, receipts, supportUnsafe, privacyDenied), now).Rank()
            <= ModeFor(FactsOf(upper, a, receipts, supportUnsafe, privacyDenied), now).Rank()
  {
    BlockingFromRun(upper, a, receipts, supportUnsafe, privacyDenied, now);
    BlockingFromRun(upper, b, receipts, supportUnsafe, privacyDenied, now);
    OrdinaryFromRun(upper, a, receipts, supportUnsafe, privacyDenied, now);
    OrdinaryFromRun(upper, b, receipts, supportUnsafe, privacyDenied, now);
    DegradationNeverHelps(a, b);
    ObligationsDegrade(a, b);
    MoreCodes(b.sourceIds, a.sourceIds);
    ModeMeans(a);
    ModeMeans(b);
    RequiresIsDemands(a, CounterAuthorityResearch);
    RequiresIsDemands(b, CounterAuthorityResearch);
    hide Answerable;
    hide Unreserved;
    hide Demands;
    hide ModeOf;
    hide HardMissing;
    hide WorkflowComplete;
    hide FactsOf;
    hide Blocking;
    hide Unqualified;
    hide Reliable;
    hide Requires;
    hide Degrades;
    hide Elems;
  }

  // ----- What a built contract says of its run --------------------------------------------

  lemma SummaryIs(digest: seq<string> -> string, evidence: seq<string>)
    ensures var a := Summary(digest, evidence);
            && a.count == |evidence| && a.digest == digest(Sort(evidence))
            && a.previewCount == |Preview(evidence)| == (if |evidence| < 512 then |evidence| else 512)
            && (a.complete <==> |evidence| <= 512)
    ensures Preview(evidence) <= Sort(evidence) && Ascending(Sort(evidence)) && Elems(Sort(evidence)) == Elems(evidence)
  {
    SortSorts(evidence);
    hide Sort;
    hide Ascending;
    hide Elems;
  }

  /** The contract built from a run names the run and its level, is complete when every required
      obligation is, carries the run's sources and the first 512 of its evidence ids in order beside a
      digest of them all, keeps the run's blockers in place without a retry, leaves nothing pending, and
      asks for a retry just for research to be retried. */
  lemma BuiltSaysRun(digest: seq<string> -> string, upper: string -> string, run: Run, receipts: seq<Receipt>, supportUnsafe: bool,
                     privacyDenied: bool, now: int, c: Contract)
    requires IsBuilt(digest, FactsOf(upper, run, receipts, supportUnsafe, privacyDenied), now, c)
    ensures c.runId == run.runId && c.level == LevelOf(upper, run) && (c.workflowComplete <==> Finished(run))
    ensures c.sources == run.sourceIds && c.receipts == receipts && c.draft == None && c.pendingSupport == [] && c.pendingLookups == []
    ensures c.evidence <= Sort(run.evidenceIds) && |c.evidence| == if |run.evidenceIds| < 512 then |run.evidenceIds| else 512
    ensures c.authorization == Some(Authorization(|run.evidenceIds|, digest(Sort(run.evidenceIds)), |c.evidence|, |run.evidenceIds| <= 512))
    ensures |run.blockers| <= |c.blockers| && forall i | 0 <= i < |run.blockers| :: c.blockers[i] == Blocker(run.blockers[i].code, false)
    ensures c.retryable ==> exists b | b in c.blockers :: b.retryable && b.code == "RESEARCH_RETRY_REQUIRED"
    ensures c.level == RetryRequired && (forall b | b in run.blockers :: b.code != "RESEARCH_RETRY_REQUIRED") ==> c.retryable
    ensures c.actions == match c.mode case RefusalOnly => [ACTION_RESEARCH] case Conditional => [ACTION_CONFIRM] case Ordinary => []
  {
    var f := FactsOf(upper, run, receipts, supportUnsafe, privacyDenied);
    FinishedIsComplete(run);
    SummaryIs(digest, run.evidenceIds);
    RunFactsAre(upper, run, receipts, supportUnsafe, privacyDenied);
    hide FactsOf;
    hide LevelOf;
    hide WorkflowComplete;
    hide Finished;
    hide Summary;
    hide Preview;
    hide Sort;
    hide Ascending;
    hide ModeFor;
    hide QualificationsFor;
    hide Blocking;
    hide BlockerCodes;
    hide BlockerCount;
    hide StatusOf;
    hide Elems;
    if c.retryable {
      var b :| b in c.blockers && b.retryable;
      assert b !in f.blockers;
    }
  }

  lemma RunFactsAre(upper: string -> string, run: Run, receipts: seq<Receipt>, supportUnsafe: bool, privacyDenied: bool)
    ensures var f := FactsOf(upper, run, receipts, supportUnsafe, privacyDenied);
            && f.runId == run.runId && f.level == LevelOf(upper, run) && f.workflowComplete == WorkflowComplete(run)
            && f.sources == run.sourceIds && f.evidence == run.evidenceIds && f.receipts == receipts
            && f.pendingSupport == [] && f.pendingLookups == [] && f.actions == [] && !f.retryable
            && |f.blockers| == |run.blockers| && (forall b | b in f.blockers :: !b.retryable)
            && (forall i | 0 <= i < |run.blockers| :: f.blockers[i] == Blocker(run.blockers[i].code, false))
            && Codes(f.blockers) == set b | b in run.blockers :: b.code
  {
    var f := FactsOf(upper, run, receipts, supportUnsafe, privacyDenied);
    RunBlockersAre(run);
    hide LevelOf;
    hide ModeOf;
    hide ReasonsOf;
    hide WorkflowComplete;
    hide RunBlockers;
    hide Codes;
    hide CounterGateOf;
    hide AbsenceGateOf;
    hide Requires;
  }

  lemma RunBlockersAre(run: Run)
    ensures var blockers := RunBlockers(run);
            && |blockers| == |run.blockers| && (forall b | b in blockers :: !b.retryable)
            && (forall i | 0 <= i < |run.blockers| :: blockers[i] == Blocker(run.blockers[i].code, false))
            && Codes(blockers) == set b | b in run.blockers :: b.code
  {
    var blockers := RunBlockers(run);
    forall b | b in run.blockers
      ensures b.code in Codes(blockers)
    {
      var i :| 0 <= i < |run.blockers| && run.blockers[i] == b;
      assert blockers[i] in blockers;
    }
  }

  // ----- The two meanings of ordinary -----------------------------------------------------

  /** The facts that a contract itself states, with nothing held against them. */
  ghost function FactsBehind(c: Contract, server: Option<seq<Receipt>>): Facts {
    Facts(c.runId, c.workflowComplete, c.level, c.sources, c.evidence, Some(c.sources), Some(c.evidence), true, true, true, true,
          c.counter, c.absence, c.qualification, c.pendingSupport, c.pendingLookups, c.blockers, c.actions, c.retryable,
          c.receipts, server, false, false)
  }

  /** The posture validator accepts a contract as ordinary exactly where the builder would have chosen
      the ordinary mode for the facts the contract states. */
  lemma OrdinaryAgrees(c: Contract, server: Option<seq<Receipt>>, now: int)
    requires c.snapshot == Some(StatusOf(c.receipts, server, now))
    ensures OrdinaryPosture(c) <==> ModeFor(FactsBehind(c, server), now).Ordinary?
  {
    hide StatusOf;
  }

  // ----- Soundness: nothing is safe to draft that the server does not carry ---------------

  /** Safe and ordinary: the server would build the ordinary posture itself, so its run is sufficient,
      sourced and unblocked with its counter-authority coverage not withdrawn; and the contract's
      receipts, like the server's, are a healthy list, one a permutation of the other. */
  lemma SafeOrdinaryMeans(digest: seq<string> -> string, upper: string -> string, c: Contract, s: Server, now: int)
    requires Admissible(digest, upper, c, s, now) && c.mode.Ordinary?
    ensures s.run.Some? && ModeFor(ServerFacts(upper, s), now).Ordinary?
    ensures Answerable(s.run.value) && Unreserved(s.run.value) && s.run.value.blockers == [] && s.run.value.sourceIds != []
    ensures Demands(s.run.value, CounterAuthorityResearch) ==> s.run.value.coverage.counterComplete != Some(false)
    ensures s.receipts.Some? && s.receipts.value != [] && Reliable(s.receipts.value, now)
    ensures c.receipts != [] && multiset(c.receipts) == multiset(s.receipts.value) && Reliable(c.receipts, now)
    ensures c.qualification == [] && c.pendingSupport == [] && c.pendingLookups == []
  {
    OrdinaryFromRun(upper, s.run.value, ServerReceipts(s), false, false, now);
    ConsistentMeans(c.receipts, s.receipts, now);
    hide StatusOf;
    hide ReferencesBound;
    hide PostureBound;
    hide FactsOf;
    hide ModeFor;
    hide Requires;
    hide Refused;
    hide HasGaps;
    hide Distinct;
    hide OneGeneration;
    hide AllCurrent;
    hide Elems;
  }

  /** A contract that is safe to draft, wherever it came from, rests on the server's own run:
      finished, error-free, with live evidence, unblocked, and no receipt set but a healthy one.
      Its mode is at most the mode the server itself would build from that run. */
  lemma SafeMeansGrounded(digest: seq<string> -> string, upper: string -> string, c: Contract, s: Server, now: int)
    requires Admissible(digest, upper, c, s, now) && Presentable(c)
    ensures s.run.Some? && s.run.value.runId == s.runId == c.runId
    ensures Answerable(s.run.value) && s.run.value.blockers == []
    ensures Elems(c.sources) <= Elems(s.run.value.sourceIds) && Elems(c.evidence) <= Elems(s.run.value.evidenceIds)
    ensures c.sources != [] && c.evidence != []
    ensures QualificationsFor(ServerFacts(upper, s), now) <= Elems(c.qualification)
    ensures GatesOfRun(s.run.value, c.counter, c.absence)
    ensures ServerReceipts(s) != [] ==> Reliable(ServerReceipts(s), now)
    ensures c.mode.Rank() <= ModeFor(ServerFacts(upper, s), now).Rank() <= ModeOf(s.run.value).Rank()
    ensures c.mode.Ordinary? ==>
              && s.receipts.Some? && c.receipts != [] && multiset(c.receipts) == multiset(s.receipts.value)
              && Reliable(c.receipts, now) && c.qualification == []
  {
    if c.mode.Ordinary? {
      SafeOrdinaryMeans(digest, upper, c, s, now);
    }
    BlockingFromRun(upper, s.run.value, ServerReceipts(s), false, false, now);
    PostureNeverUpgrades(upper, s.run.value, ServerReceipts(s), false, false, now);
    GatesAreTheRuns(upper, s.run.value, ServerReceipts(s), false, false);
    hide GatesOfRun;
    hide Answerable;
    hide Unreserved;
    hide Demands;
    hide ModeOf;
    hide Blocking;
    hide Unqualified;
    hide FactsOf;
    hide QualificationsFor;
    hide Refused;
    hide HasGaps;
    hide Reliable;
    hide StatusOf;
    hide Elems;
    hide Distinct;
    hide Summary;
    hide Preview;
    hide OrdinaryGates;
  }

  // ----- Completeness: the server's own contract passes -----------------------------------

  ghost function ServerOf(run: Run, receipts: seq<Receipt>): Server {
    Server(run.runId, run.sourceIds, run.evidenceIds, Some(receipts), Some(run))
  }

  // ----- The limits of a contract -------------------------------------------------------

  /** When a run with unique ids can be built, in terms of the run: its own lists fit, and so do the
      computed qualifications and blockers. */
  lemma RunFits(upper: string -> string, run: Run, receipts: seq<Receipt>, supportUnsafe: bool, privacyDenied: bool, now: int)
    ensures var f := FactsOf(upper, run, receipts, supportUnsafe, privacyDenied);
            FactsSized(f, now) <==>
              && |run.sourceIds| <= 256 && |receipts| <= 64 && |run.coverage.limitations| <= 32
              && |QualificationsFor(f, now)| <= 64 && BlockerCount(f, now) <= 64
  {
    hide QualificationsFor;
    hide BlockerCount;
    hide LevelOf;
    hide ReasonsOf;
    hide Requires;
    hide WorkflowComplete;
    hide RunBlockers;
  }

  lemma {:induction false} PrefixedCount(prefix: string, codes: set<string>, all: set<string>)
    requires forall c | c in codes :: prefix + c in all
    ensures |codes| <= |all|
    decreases codes
  {
    if codes != {} {
      var c :| c in codes;
      forall x | x in codes - {c}
        ensures prefix + x in all - {prefix + c}
      {
        assert (prefix + x)[|prefix|..] == x && (prefix + c)[|prefix|..] == c;
      }
      PrefixedCount(prefix, codes - {c}, all - {prefix + c});
    }
  }

  lemma TimeoutsQualify(upper: string -> string, run: Run, receipts: seq<Receipt>, now: int)
    requires run.coverage.timeoutCodes != []
    ensures var f := FactsOf(upper, run, receipts, false, false);
            forall c | c in run.coverage.timeoutCodes :: "RETRY_REQUIRED:" + c in QualificationsFor(f, now)
  {
    var f := FactsOf(upper, run, receipts, false, false);
    TimeoutsNeedRetry(upper, run);
    assert Elems(f.qualification) == ReasonsOf(upper, run) && f.level == LevelOf(upper, run);
    hide FactsOf;
    hide ReasonsOf;
    hide LevelOf;
    hide WithinServer;
    hide ReceiptsMissing;
    hide ReceiptsConsistent;
    hide Elems;
  }

  /** More timeout codes than qualifications fit make a run that cannot be built, and against which
      nothing can be validated. */
  lemma TooManyTimeouts(upper: string -> string, run: Run, receipts: seq<Receipt>, now: int)
    requires |Elems(run.coverage.timeoutCodes)| > 64
    ensures !FactsSized(FactsOf(upper, run, receipts, false, false), now)
    ensures !Rebuildable(upper, ServerOf(run, receipts), now)
  {
    EmptyElems(run.coverage.timeoutCodes);
    TimeoutsQualify(upper, run, receipts, now);
    hide FactsOf;
    hide QualificationsFor;
    PrefixedCount("RETRY_REQUIRED:", Elems(run.coverage.timeoutCodes),
                  QualificationsFor(FactsOf(upper, run, receipts, false, false), now));
  }

  /** Validating the server's own contract against its run never fails for want of room. */
  lemma OwnRunIsRebuildable(upper: string -> string, run: Run, receipts: seq<Receipt>, supportUnsafe: bool, privacyDenied: bool, now: int)
    requires RunUnique(run) && FactsSized(FactsOf(upper, run, receipts, supportUnsafe, privacyDenied), now)
    ensures Rebuildable(upper, ServerOf(run, receipts), now)
  {
    var f, plain := FactsOf(upper, run, receipts, supportUnsafe, privacyDenied), FactsOf(upper, run, receipts, false, false);
    RunFits(upper, run, receipts, supportUnsafe, privacyDenied, now);
    RunFits(upper, run, receipts, false, false, now);
    assert plain == f.(supportUnsafe := false, privacyDenied := false);
    hide FactsOf;
    hide FactsSized;
    hide RunUnique;
    PlainIsSmaller(f, plain, now);
  }

  lemma PlainIsSmaller(f: Facts, plain: Facts, now: int)
    requires plain == f.(supportUnsafe := false, privacyDenied := false)
    requires |QualificationsFor(f, now)| <= 64 && BlockerCount(f, now) <= 64
    ensures |QualificationsFor(plain, now)| <= 64 && BlockerCount(plain, now) <= 64
  {
    if f.supportUnsafe || f.privacyDenied {
      PlainBlockers(f, plain, now);
      PlainQualifications(f, plain, now);
    } else {
      assert plain == f;
    }
    hide QualificationsFor;
    hide BlockerCodes;
    hide Repeats;
  }

  lemma PlainBlockers(f: Facts, plain: Facts, now: int)
    requires plain == f.(supportUnsafe := false, privacyDenied := false)
    ensures |BlockerCodes(plain, now)| <= |BlockerCodes(f, now)|
  {
    SameWork(f, plain);
    SameReceipts(f, plain, now);
    hide BindingCodes;
    hide WorkCodes;
    hide ReceiptsMissing;
    hide ReceiptsConsistent;
    hide Codes;
    assert OutputCodes(plain, now) <= OutputCodes(f, now);
    hide OutputCodes;
    SubsetCardinality(BlockerCodes(plain, now), BlockerCodes(f, now));
  }

  lemma SameWork(f: Facts, plain: Facts)
    requires plain == f.(supportUnsafe := false, privacyDenied := false)
    ensures BindingCodes(plain) == BindingCodes(f) && WorkCodes(plain) == WorkCodes(f)
  {
    hide WithinServer;
  }

  lemma SameReceipts(f: Facts, plain: Facts, now: int)
    requires plain == f.(supportUnsafe := false, privacyDenied := false)
    ensures ReceiptsMissing(plain, now) == ReceiptsMissing(f, now) && ReceiptsConsistent(plain, now) == ReceiptsConsistent(f, now)
  {
    hide StatusOf;
  }

  lemma SameQualifications(f: Facts, plain: Facts, now: int)
    requires plain == f.(supportUnsafe := false, privacyDenied := false)
    ensures Qualifications(plain, now) == Qualifications(f, now)
  {
    SameReceipts(f, plain, now);
    hide ReceiptsMissing;
    hide ReceiptsConsistent;
    hide Elems;
  }

  lemma PlainQualifications(f: Facts, plain: Facts, now: int)
    requires plain == f.(supportUnsafe := false, privacyDenied := false) && (f.supportUnsafe || f.privacyDenied)
    ensures |QualificationsFor(plain, now)| <= |QualificationsFor(f, now)| || |QualificationsFor(plain, now)| <= 1
  {
    SameQualifications(f, plain, now);
    hide Qualifications;
    assert Blocking(f, now);
    hide Blocking;
    hide Unqualified;
    assert QualificationsFor(f, now) == Qualifications(f, now);
  }

  lemma TimeoutsNeedRetry(upper: string -> string, run: Run)
    requires run.coverage.timeoutCodes != []
    ensures LevelOf(upper, run).RetryRequired?
    ensures forall c | c in run.coverage.timeoutCodes :: "RETRY_REQUIRED:" + c in ReasonsOf(upper, run)
  {
    hide ObligationReasons;
    hide CoverageReasons;
    hide Retryable;
    hide RetryBlocked;
    hide RetryableObligation;
    assert RetryNeeded(upper, run);
    forall c | c in run.coverage.timeoutCodes
      ensures "RETRY_REQUIRED:" + c in Prefixed("RETRY_REQUIRED:", run.coverage.timeoutCodes)
    {
    }
  }

  lemma OwnReferencesBound(digest: seq<string> -> string, upper: string -> string, run: Run, receipts: seq<Receipt>,
                           supportUnsafe: bool, privacyDenied: bool, now: int, c: Contract)
    requires RunUnique(run)
    requires IsBuilt(digest, FactsOf(upper, run, receipts, supportUnsafe, privacyDenied), now, c)
    ensures ReferencesBound(digest, c, ServerOf(run, receipts)) <==>
              (Presentable(c) ==> run.sourceIds != [] && run.evidenceIds != [])
  {
    PreviewIs(digest, run.evidenceIds);
    hide BlockerCount;
    hide BlockerCodes;
    hide Codes;
    hide ActionsFor;
    hide Preview;
    hide Summary;
    hide StatusOf;
    hide Blocking;
    hide ModeFor;
    hide QualificationsFor;
    hide ReasonsOf;
    hide CounterGateOf;
    hide AbsenceGateOf;
    hide LevelOf;
    hide Elems;
    hide Distinct;
  }

  lemma OwnPostureBound(digest: seq<string> -> string, upper: string -> string, run: Run, receipts: seq<Receipt>, now: int, c: Contract)
    requires IsBuilt(digest, FactsOf(upper, run, receipts, false, false), now, c)
    ensures PostureBound(upper, c, ServerOf(run, receipts), now) <==> Presentable(c)
  {
    hide FactsOf;
    hide Preview;
    hide Summary;
    hide StatusOf;
    hide Blocking;
    hide QualificationsFor;
    hide ModeFor;
    hide Elems;
  }

  lemma OwnGates(digest: seq<string> -> string, upper: string -> string, run: Run, receipts: seq<Receipt>,
                 supportUnsafe: bool, privacyDenied: bool, now: int, c: Contract)
    requires IsBuilt(digest, FactsOf(upper, run, receipts, supportUnsafe, privacyDenied), now, c)
    ensures c.mode.Ordinary? ==> OrdinaryGates(c, ServerOf(run, receipts), now)
    ensures Presentable(c) ==> c.blockers == []
    ensures Presentable(c) ==>
              var status := StatusOf(c.receipts, Some(receipts), now); !status.ForeignReceipt? && !status.Mismatch?
  {
    EmptyElems(c.qualification);
    OwnReceipts(receipts, now);
    hide Preview;
    hide Summary;
    hide StatusOf;
    hide Qualifications;
    hide ReasonsOf;
    hide CounterGateOf;
    hide AbsenceGateOf;
    hide LevelOf;
    hide WithinServer;
    hide Elems;
    hide Reliable;
  }

  /** The contract built from a run with unique identifiers, validated against that run with the
      same receipts and clock, is safe to draft exactly when it is no refusal and has a source. */
  lemma ServerBuiltIsSafe(digest: seq<string> -> string, upper: string -> string, run: Run, receipts: seq<Receipt>,
                          supportUnsafe: bool, privacyDenied: bool, now: int, c: Contract)
    requires RunUnique(run)
    requires IsBuilt(digest, FactsOf(upper, run, receipts, supportUnsafe, privacyDenied), now, c)
    ensures Admissible(digest, upper, c, ServerOf(run, receipts), now) && Presentable(c) <==>
              Presentable(c) && run.sourceIds != []
  {
    hide IsBuilt;
    hide ReferencesBound;
    hide PostureBound;
    hide OrdinaryGates;
    hide StatusOf;
    hide Elems;
    hide FactsOf;
    hide RunUnique;
    OwnReferencesBound(digest, upper, run, receipts, supportUnsafe, privacyDenied, now, c);
    OwnGates(digest, upper, run, receipts, supportUnsafe, privacyDenied, now, c);
    if Presentable(c) {
      PresentableFlags(digest, upper, run, receipts, supportUnsafe, privacyDenied, now, c);
      OwnPostureBound(digest, upper, run, receipts, now, c);
    }
  }

  lemma PresentableFlags(digest: seq<string> -> string, upper: string -> string, run: Run, receipts: seq<Receipt>,
                         supportUnsafe: bool, privacyDenied: bool, now: int, c: Contract)
    requires IsBuilt(digest, FactsOf(upper, run, receipts, supportUnsafe, privacyDenied), now, c) && Presentable(c)
    ensures !supportUnsafe && !privacyDenied && run.evidenceIds != []
  {
    hide Preview;
    hide Summary;
    hide StatusOf;
    hide QualificationsFor;
    hide ReasonsOf;
    hide CounterGateOf;
    hide AbsenceGateOf;
    hide LevelOf;
    hide WithinServer;
    hide Elems;
  }
}
