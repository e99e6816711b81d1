# Verification of the research core of ALR-TW

ALR-TW is a server that supports legal research: it searches for authorities, verifies them against
official sources, and decides whether a draft answer may rest on them. This project models the
decisions in that server which have to be right in every case, and proves them in Dafny.
`dfyconfig.toml` lists the files.

Five groups of decisions are modelled.

**Resumable bounded search.** A plan of queries is run against a search provider and a verification
provider under a global budget, and leaves a progress record that a later call resumes.
`CounterAuthority` states what one run means, as a function of the plan, the progress and three
provider oracles. The oracles depend on the call's number, so a provider may answer, time out or
raise differently on each call. `CounterExecutor` is the imperative executor, proved equal to that
function. `CounterStep` and `CounterRun` give the invariants of a query and of a run;
`CounterHistory`, `CounterBudget` and `CounterAbsence` hold the theorems over chains of resumes of
any length. `CounterTrace` and `CounterListed` tie every record and result to the single answers of
the providers, `CounterOutcome` and `CounterReasons` give the statuses and the reasons, and
`CounterEnds` says exactly when a run ends a query. `CounterStuck`, `CounterStarved`,
`CounterRepeats`, `CounterExamples` and `CounterStarvedExamples` show what chains of resumes do not
promise. Plan length, candidates per query and budget are parameters.

**Graphs and applicability.** `Graphs` holds paths, cycles and reachability, and the depth-first
search with its two mutable sets. `Applicability` is the resolver that selects the controlling
source, `ApplicabilityFacts` reads admission and force off the records, `ApplicabilityLaws` says what
the answer means, `ApplicabilityOrder` exactly when the order of a request matters, and
`ApplicabilityExamples` gives a case in which it does. `ResearchPlan`
checks the issue hierarchy of an external plan by walking along parents. `AuthorityLineage` checks
and validates lineage contracts; `JudgmentLineage` builds one from verified upper and lower
instances, `JudgmentLineageFacts` says what that contract says of them, and `JudgmentLineageLaws`
what it is worth.

**Trust gates.** `Snapshot` compares receipts with the server's own, `Conformance` decides whether a
provider result conforms, `Sufficiency` evaluates a research run, and `Finalization` builds a
posture from a run and validates any posture against a run. `ConformanceLaws` and `SufficiencyLaws`
say what the first answers mean in the fields of what comes in, and `FinalizationLaws` composes them:
what is safe to draft rests on the run, and what the server builds itself passes.

**Evaluation accounting.** `Evaluation` validates and pairs runs, `EvaluationPairing` proves that no
task and no run is lost, `EvaluationReport` computes metrics and the report, and `EvaluationLaws` says
what each imported run and review adds to them.

**Text and identity.** `Citations` proposes offsets and lists the ranges of a claim, `Identity`
ranks and merges judgment identities, and `Numerals` reads Chinese numerals.

`Collections` and `Sorting` hold what the modules share. A method that follows code which works step
by step is proved against a specification function or predicate of the same module, and the promises
are proved about that. Exceptions are `Err` or `Rejected` results. Clocks are integers, hashes and
digests are function parameters, assumed injective where a result needs it.

Where the code does less than its surroundings suggest, it is kept as it is, with a concrete case
and its exact condition. The attempts a search reports can exceed the budget
(`ReportedAttemptsExceedBudget`, `ReportedAttemptsWithinBudget`). A retried query can stay partial
for ever although its searches are answered in full and every verification would succeed: because it
counts more candidates than it can verify (`RetryNeverFinishes`, `StuckForever`), because the budget
is spent (`SpentStarvesForever`, `SpentForever`), or because another query has taken the key of its
candidate (`TakenStarvesForever`, `SeededForever`); `StarvedForever` is the general form of the last
two. What one run needs to end a query is stated exactly (`QueryEnds`). A key verified for a
finished query can be verified again (`VerifiedTwice`, `KeyCanRecur`). Resuming a finished search
can newly report exhaustion (`ResumingReportsExhaustion`, `FinishedIsKept`). An eligible lineage
contract can be structurally invalid (`EligibleButUnboundExample`, `EligibleButUnbound`), and a
lineage of many lower instances cannot be built (`HowManyInstances`, `DistinctDecisionsBuild`). A
run with more reasons than a finalization contract holds can be neither built nor validated against
(`TooManyTimeouts`, `RunFits`). The order of the server's receipts can show in the reason codes
(`ReasonsAreNotOrderFree`, `ReasonsOrderDecides`). The order of an applicability request can decide
whether a record is returned at all, since the record holds at most 256 findings (`OrderCanMatter`,
`OrderMattersExactly`). Candidates of two providers can be merged as one judgment when a provider id
holds the separator of their names (`ProvidersCanCollide`, `SameKey`, `PlainProvidersApart`).

## Model

| member | source | states |
|---|---|---|
| CounterAbsence.AbsenceOverHistory | src/alr_tw/research/counter_authority.py:387-778 | over any chain of resumes with arbitrary providers, the last run allows the absence claim exactly when every record reads not-found and no search of the whole chain returned a candidate; then verification was never called |
| CounterHistory.TerminalMeansVerified | src/alr_tw/research/counter_authority.py:445-474 | in every reachable progress there is one record per query in plan order, and a found or not-found record has verified every candidate ever recorded for it |
| CounterHistory.ResumptionIsMonotone | src/alr_tw/research/counter_authority.py:397-434 | from any run to any later one terminal records are unchanged, records lose no identifier, attempts and cursor never go back, reported ids only grow, and the progress is complete exactly when every record is terminal |
| CounterBudget.BudgetHolds | src/alr_tw/research/counter_authority.py:562-586 | over a whole chain the verification calls that consume budget, raising ones included, never exceed the budget, and the records account for each of them exactly |
| CounterBudget.ReportedAttemptsWithinBudget | src/alr_tw/research/counter_authority.py:425-435 | the reported attempts stay within the budget exactly when the queries already recorded as found count no more candidates than the budget: the legacy floor is the only way to exceed it |
| CounterExamples.ReportedAttemptsExceedBudget | src/alr_tw/research/counter_authority.py:425-435 | a concrete chain of two runs that reports more attempts than the budget although one call was charged |
| CounterHistory.FinishedIsKept | src/alr_tw/research/counter_authority.py:397-474 | resuming a finished history asks nothing and changes no record, but reports the budget as exhausted exactly when the attempts it starts from reach the budget |
| CounterExamples.ResumingReportsExhaustion | src/alr_tw/research/counter_authority.py:430-435 | a concrete finished search whose resumption newly reports exhaustion |
| CounterStuck.StuckForever | src/alr_tw/research/counter_authority.py:445-466 | a query held to be unresolved while none of its recorded candidates is unverified stays unfinished over any number of runs in which every candidate recorded for it is verified |
| CounterEnds.StuckDecides | src/alr_tw/research/counter_authority.py:445-474 | over any further runs whose searches answer in full and bring, afford and verify everything unresolved, a retried query is finished at the end exactly when it was not stuck before them |
| CounterEnds.QueryEnds | src/alr_tw/research/counter_authority.py:439-664 | for any providers, a run ends an unfinished query exactly when it was not stuck, its search answers in full, the candidates neither seen nor listed twice are covered by the budget left and all verify, and the unresolved ones are among them; then all of these are verified |
| CounterEnds.FirstOpenIsKnown | src/alr_tw/research/counter_authority.py:402-435 | for the first unfinished query the seen keys are the seeds of the records, the attempts are those the run starts from, and no provider has been called before its search |
| CounterEnds.NewIs | src/alr_tw/research/counter_authority.py:561-576 | the candidates examined have exactly the keys that are listed and not seen, each once |
| CounterStarved.StarvedForever | src/alr_tw/research/counter_authority.py:445-466 | over any number of runs that offer no candidate of this id with an unseen key and budget left, a recorded and unverified candidate keeps its query unfinished without being stuck |
| CounterStarved.SpentForever | src/alr_tw/research/counter_authority.py:430-436 | once the starting attempts reach the budget and every verification consumes it, a query with an unresolved candidate never ends, whatever the searches answer |
| CounterStarved.SeededForever | src/alr_tw/research/counter_authority.py:404-411 | once the key of an unresolved candidate is among the candidate ids of a finished query, the query waiting for it never ends, even with free verification |
| CounterStarvedExamples.SpentStarvesForever | src/alr_tw/research/counter_authority.py:569-576 | a concrete search whose only attempt timed out, never finished by any number of complete and verifying runs, and never stuck |
| CounterStarvedExamples.TakenStarvesForever | src/alr_tw/research/counter_authority.py:562-564 | a concrete search of two queries in which the second takes the candidate of the first, which is then never finished |
| CounterStuck.RetryNeverFinishes | src/alr_tw/research/counter_authority.py:641-660 | a concrete search that stays partial however often it is resumed with providers that answer completely and verify everything |
| CounterBudget.NoKeyTwiceInARun | src/alr_tw/research/counter_authority.py:562-586 | within one run no two verification calls have the same candidate key |
| CounterBudget.VerifiedIsNotRepeated | src/alr_tw/research/counter_authority.py:409-423 | a key verified for a query that is still unfinished is never passed to verification again by a later run |
| CounterRepeats.KeyCanRecur | src/alr_tw/research/counter_authority.py:404-423 | with the folding of keys given, some next run verifies a key, verified before or not, exactly when some candidate has that key, it is not among the seeds of the records and some query is unfinished |
| CounterRepeats.VerifiedTwice | src/alr_tw/research/counter_authority.py:409-411 | a concrete chain in which the key verified for a finished query is verified again, because a finished query seeds its candidate ids only |
| CounterHistory.RecordsGrow | src/alr_tw/research/counter_authority.py:601-640 | no record loses a candidate, a verified id, a source, an attempt or a count between any two runs |
| CounterAbsence.UnverifiedStaysOpen | src/alr_tw/research/counter_authority.py:445-466 | as long as nothing was verified, a candidate that was ever counted keeps some query unfinished |
| CounterHistory.ValidatorsPass | src/alr_tw/research/counter_authority.py:179-250 | the validators of the progress and of the result never reject what a run builds |
| CounterExecutor.ExecuteBounded | src/alr_tw/research/counter_authority.py:387-778 | the imperative executor computes exactly one run of the specification, traces of all provider calls included |
| CounterExecutor.AskOne | src/alr_tw/research/counter_authority.py:442-550 | one pass of the query loop: terminal records are kept, errors keep what was recorded, everything else is searched |
| CounterExecutor.ExamineCandidates | src/alr_tw/research/counter_authority.py:552-600 | the candidate loop with its early stop when the budget is spent |
| CounterExecutor.ExamineCandidate | src/alr_tw/research/counter_authority.py:561-600 | one candidate: skipped when seen, charged before the call, settled by the answer |
| CounterExecutor.SettleCandidate | src/alr_tw/research/counter_authority.py:577-600 | timeouts, exceptions and ineligible answers fail the query; only an eligible answer adds the candidate, its key, sources and evidence |
| CounterExecutor.SeedCandidates | src/alr_tw/research/counter_authority.py:404-423 | which candidates earlier records keep from being verified again |
| CounterExecutor.RecordWork | src/alr_tw/research/counter_authority.py:601-674 | the merged record extends the earlier one, is terminal only with every candidate verified, and counts as a failure exactly when it is partial |
| CounterExecutor.MergeLists | src/alr_tw/research/counter_authority.py:601-640 | earlier entries first, then new ones, each once |
| CounterExecutor.NextRetryOrdinal | src/alr_tw/research/counter_authority.py:781-798 | the cursor is the first ordinal whose record is missing or unfinished |
| CounterStep.AskQueryKeeps | src/alr_tw/research/counter_authority.py:442-674 | whatever a provider does, one query leaves a well-formed record that has lost nothing, with attempts, failures and ids accounted for |
| CounterStep.CleanEndIsVerified | src/alr_tw/research/counter_authority.py:641-660 | a query ends clean only when every candidate ever recorded for it has been verified |
| CounterStep.OpenStaysOpen | src/alr_tw/research/counter_authority.py:641-660 | while nothing is verified, a record that counts a candidate stays unfinished |
| CounterRun.ResultAttempts | src/alr_tw/research/counter_authority.py:424-435 | the attempts of one run are the resumed attempts plus its charged calls, and a run that charges anything stays within the budget |
| CounterRun.ResultSources | src/alr_tw/research/counter_authority.py:675-698 | the ids a run reports are exactly those on its records |
| CounterRun.ResultAbsence | src/alr_tw/research/counter_authority.py:699-775 | when one run allows the absence claim |
| CounterRun.ResultKeys | src/alr_tw/research/counter_authority.py:562-576 | the keys verified by a run are pairwise distinct and disjoint from the seeds |
| CounterTrace.RecordsAreTheirCalls | src/alr_tw/research/counter_authority.py:577-690 | after any chain, a record lists exactly the candidates, keys, sources and eligible spans of the calls for its query whose answer was found, with a trusted, hashed and time-stamped source and an eligible span, in any run, and counts exactly the calls charged |
| CounterTrace.ReportedAreGiven | src/alr_tw/research/counter_authority.py:704-722 | a source or span is reported exactly when some call of the chain for a query of the plan was answered in that way with it |
| CounterTrace.UnverifiedLeavesOpen | src/alr_tw/research/counter_authority.py:206-215 | a single answer of the last run without one of these properties leaves its query unfinished |
| CounterTrace.CallsAreAnswers | src/alr_tw/research/counter_authority.py:561-586 | every call is the answer of the run's provider to that candidate, charged unless the cost hook said otherwise, for a candidate that a search of the run returned within the limit |
| CounterTrace.KeyIsFirstName | src/alr_tw/research/counter_authority.py:801-812 | a candidate is known by the first non-empty name among judgment id, document id, official identifier, url and candidate id, folded |
| CounterListed.EveryCandidateIsLookedAt | src/alr_tw/research/counter_authority.py:561-600 | unless the budget has run out, every candidate returned within the limit is verified in the run or seeded by earlier records, and the candidate count is the number of calls; otherwise each query counts at most one more |
| CounterListed.CandidatesAreCalled | src/alr_tw/research/counter_authority.py:561-620 | a record lists every candidate ever verified for its query, and, unless the budget has run out, no other |
| CounterOutcome.QueryStatusIs | src/alr_tw/research/counter_authority.py:481-674 | the status a run gives an unfinished query: after an error partial, blocked or failed by what was recorded and by the error code; otherwise found or not found as the provider says exactly when the query ends, and partial when it does not |
| CounterOutcome.OutcomeMeans | src/alr_tw/research/counter_authority.py:723-775 | the status of a run in terms of its records, reported sources and budget; its coverage is complete exactly when all queries have ended within the budget |
| CounterOutcome.StuckMeans | src/alr_tw/research/counter_authority.py:445-466 | a record is stuck exactly when it is unfinished with all its candidates verified, and counts more of them or was once left unresolved |
| CounterReasons.ReasonsAreReported | src/alr_tw/research/counter_authority.py:743-775 | the reasons of a run are, each once, those on the records of the queries it asked and the codes of its outcome; every call that verified nothing is explained on the record of its query |
| CounterReasons.QueryReasons | src/alr_tw/research/counter_authority.py:481-674 | the record of a query whose search failed says why, and one left partial says so |
| CounterRun.LastRecordCounts | src/alr_tw/research/counter_authority.py:399-399 | of several resumed records of one query exactly the last one counts |
| Graphs.DepthFirstSearch.Search | src/alr_tw/contracts/applicability.py:499-512 | the depth-first search answers true exactly when the graph has a directed cycle; otherwise its finish order is a topological order |
| Graphs.DepthFirstSearch.Visit | src/alr_tw/contracts/authority_lineage.py:419-433 | a recursive visit that reports a cycle has one, and otherwise finishes the node and restores the set of nodes in progress |
| Graphs.PredecessorsLead | src/alr_tw/contracts/applicability.py:402-432 | in a finite acyclic graph in which only c has no predecessor, c reaches every node |
| Applicability.HasCycle | src/alr_tw/contracts/applicability.py:491-512 | the cycle check on the edge list is exact |
| Applicability.ResolveRequest | src/alr_tw/contracts/applicability.py:316-453 | the resolver computes the specified resolution, gates, time, scope, relations and selection included |
| Applicability.ReadRelations | src/alr_tw/contracts/applicability.py:455-489 | relations are read source by source and kind by kind, stopping at the first target out of scope |
| ApplicabilityFacts.GateMeans | src/alr_tw/contracts/applicability.py:294-358 | a request passes the gates exactly when the server names its sources, none twice and each well-formed, and every requested one is named, in the catalog, server-owned and verified |
| ApplicabilityFacts.RefusedRequests | src/alr_tw/contracts/applicability.py:316-358 | any other request gets the record with the first reason that holds, in the order of the gates |
| ApplicabilityFacts.AssessmentMeans | src/alr_tw/contracts/applicability.py:248-267 | a source is out of scope, in force, not yet in force or no longer in force exactly by its scope key, its first and last day and its repeal |
| ApplicabilityLaws.AdmittedRequests | src/alr_tw/contracts/applicability.py:359-453 | a record returned for an admitted request says what the sources in force and the relations among them decide; a historical version is unavailable exactly when every requested source starts later; each source is assessed in turn |
| ApplicabilityLaws.FindingsAreRelations | src/alr_tw/contracts/applicability.py:455-489 | the findings are exactly the relations of the requested sources by kind, active exactly when both ends are in force; without a source in force there are none |
| ApplicabilityLaws.ControllingSourceDominates | src/alr_tw/contracts/applicability.py:248-453 | applicable with controlling source c exactly when the request is admitted, all targets are requested, the targets fit the record, and c reaches every requested source of the scope that is in force on the date, without a cycle; admission and force in the fields of the records |
| ApplicabilityLaws.UndominatedDominates | src/alr_tw/contracts/applicability.py:402-432 | exactly one undominated source in an acyclic graph is the same as one source dominating all others transitively |
| ApplicabilityOrder.OrderDoesNotMatter | src/alr_tw/contracts/applicability.py:316-453 | two orders of one request agree on status, controlling source, reasons and limitations whenever both return, and both or neither return unless the request is order-sensitive |
| ApplicabilityOrder.OrderMattersExactly | src/alr_tw/contracts/applicability.py:455-489 | two orders of one request of which one returns a record and the other does not exist exactly when the request is admitted, some source is in force, some stray source read after all loyal ones exceeds the record, and some stray source read first stays within it |
| ApplicabilityOrder.ReadsUpTo | src/alr_tw/contracts/applicability.py:455-489 | an order reads all relations of the sources before its first stray one and that source's up to the target out of scope |
| ApplicabilityOrder.SettledRequests | src/alr_tw/contracts/applicability.py:455-489 | a request whose targets are all requested, or whose relations fit the record, is not order-sensitive |
| ApplicabilityExamples.StrayLastOrFirst | src/alr_tw/contracts/applicability.py:455-489 | with one source that leads out of scope at once: read last, no record is returned exactly when the other relations exceed the limit; read first, a record is always returned |
| ApplicabilityExamples.OrderCanMatter | src/alr_tw/contracts/applicability.py:190-192 | a concrete catalog of 51 sources and one request whose two orders get a refusal and an answer |
| ApplicabilityLaws.InactiveSourceIsNeutral | src/alr_tw/contracts/applicability.py:372-453 | adding an admitted source that is out of scope or not in force on the date, with all targets in the request, leaves an applicable outcome and its controlling source unchanged, exactly when the relations fit the record |
| ApplicabilityLaws.OutOfScopeBlocks | src/alr_tw/contracts/applicability.py:469-476 | a relation target outside the request blocks whatever else holds |
| ApplicabilityLaws.RecordsAreValid | src/alr_tw/contracts/applicability.py:203-222 | every resolution the resolver returns passes the record's own validator |
| ApplicabilityLaws.ValidateResolution | src/alr_tw/contracts/applicability.py:536-583 | a proposed resolution is accepted exactly when it is the server's own applicable resolution |
| ResearchPlan.ValidatePlan | src/alr_tw/contracts/interop.py:135-183 | a plan is accepted exactly when ids are unique, parents known, the hierarchy acyclic, locators known, and each required core issue located; every rejection states a true fault |
| ResearchPlan.HasCyclicParents | src/alr_tw/contracts/interop.py:154-161 | the walks along parents report a repeat exactly when the parent map has a cycle |
| ResearchPlan.AcceptedPlanIsForest | src/alr_tw/contracts/interop.py:144-161 | in an accepted plan following parents from any issue ends at an issue without one |
| AuthorityLineage.IsAcyclic | src/alr_tw/contracts/authority_lineage.py:414-433 | the adjacency walk accepts exactly the acyclic edge lists |
| AuthorityLineage.ValidateGraph | src/alr_tw/contracts/authority_lineage.py:388-433 | a contract is built exactly when ids are unique, endpoints and treatments known, coverage consistent, and the graph acyclic |
| AuthorityLineage.ContractRefs | src/alr_tw/contracts/authority_lineage.py:458-472 | the collected references are exactly the source and evidence ids the contract mentions |
| AuthorityLineage.ValidateLineage | src/alr_tw/contracts/authority_lineage.py:475-583 | structural validity, eligibility, checked ids, qualifications and the set of blocker codes are exactly what the contract and the server's lists support; valid means both; recording fails exactly beyond 64 qualifications |
| AuthorityLineage.EligibleButUnbound | src/alr_tw/contracts/authority_lineage.py:526-583 | an eligible contract is structurally invalid exactly when some resolved posture omits its node's source |
| AuthorityLineage.EligibleButUnboundExample | src/alr_tw/contracts/authority_lineage.py:526-583 | such a contract exists and passes every graph check |
| AuthorityLineage.RefsAre | src/alr_tw/contracts/authority_lineage.py:458-472 | the references of a contract, source by source and span by span, are those of its nodes, their postures, its edges and its treatments |
| AuthorityLineage.EligibleMeans | src/alr_tw/contracts/authority_lineage.py:526-583 | a bound contract is eligible exactly when it is complete, has no treatment and no bounded miss, and each node has a known role, six resolved axes and a resolved posture |
| AuthorityLineage.QualifiedMeans | src/alr_tw/contracts/authority_lineage.py:526-560 | a node is qualified by its role, its axes and its posture, each exactly when it is not known |
| JudgmentLineage.BuildLineage | src/alr_tw/research/judgment_lineage.py:127-255 | the builder succeeds exactly when decisions have distinct nodes, lists have no repeats and all list limits hold, that of the final validation included; every record it returns passes its own validator, and the contract every graph check |
| JudgmentLineage.LineageGraphValid | src/alr_tw/research/judgment_lineage.py:127-255 | the built graph passes every graph check exactly when the decisions' identifiers are distinct and differ from the root's |
| JudgmentLineage.LineageIsAcyclic | src/alr_tw/research/judgment_lineage.py:164-179 | the lineage of distinct decisions has no cycle |
| JudgmentLineage.DispositionCodes | src/alr_tw/research/judgment_lineage.py:58-88 | the codes are the known codes of metadata and decisive spans without repeats; unknown stays only alone |
| JudgmentLineage.ConfirmedReversals | src/alr_tw/research/judgment_lineage.py:181-196 | the confirmed reversals are exactly the upper, marked instances whose decisive evidence says vacated, in order |
| JudgmentLineageLaws.BuiltContractStanding | src/alr_tw/research/judgment_lineage.py:243-255 | against its own server ids the built contract is structurally valid exactly when those are free of repeats, and never eligible |
| JudgmentLineageLaws.DistinctDecisionsBuild | src/alr_tw/research/judgment_lineage.py:127-255 | any number of decisions with distinct identifiers, sources and evidence gives a contract that passes every graph check and is structurally valid but not eligible; it is built exactly when the list limits hold |
| JudgmentLineage.QualificationsCounted | src/alr_tw/research/judgment_lineage.py:243-255 | the validation of the built contract reports three qualifications, one for every decision, one more for each lower instance, and one for a treatment |
| JudgmentLineageLaws.HowManyInstances | src/alr_tw/research/judgment_lineage.py:127-255 | thirty instances never exceed the limit on qualifications; thirty-one or more lower ones always do |
| JudgmentLineageFacts.ContractSays | src/alr_tw/research/judgment_lineage.py:127-255 | the built contract in the fields of the decisions: a node for each with its role, axes and posture, an edge for each in its direction, one treatment exactly when some upper, marked instance has a deciding span and a vacated code, its scope, coverage and limits |
| JudgmentLineageFacts.KnownCodesAre | src/alr_tw/research/judgment_lineage.py:58-88 | a code other than unknown is known exactly when some span decides and the metadata or a deciding span has it; unknown stands only alone |
| Snapshot.AssessSnapshotConsistency | src/alr_tw/contracts/provider_snapshot.py:196-280 | the assessment's status, reasons, count and generations are those of the two receipt lists |
| Snapshot.AppendScopeDiagnostics | src/alr_tw/contracts/provider_snapshot.py:156-193 | duplicates, outdated receipts and mixed generations are reported exactly when present; each provider's first generation is returned |
| Snapshot.ConsistentMeans | src/alr_tw/contracts/provider_snapshot.py:196-280 | consistent exactly when the receipts are a non-empty permutation of the server's, each with verified status, issued by now and not expired, no id twice, and one snapshot and generation for each provider |
| Snapshot.ConsistencyExpires | src/alr_tw/contracts/provider_snapshot.py:103-116 | at a later time consistent lists are still consistent exactly when no receipt has expired by then, and are a mismatch otherwise |
| Snapshot.ForeignDecides | src/alr_tw/contracts/provider_snapshot.py:233-267 | a binding reason is reported exactly when the server's list is missing, differs as a multiset, or gives one id to two different receipts |
| Snapshot.StatusIsOrderFree | src/alr_tw/contracts/provider_snapshot.py:196-280 | the status is invariant under reordering either list, duplicated server ids included |
| Snapshot.ReasonsAreNotOrderFree | src/alr_tw/contracts/provider_snapshot.py:240-250 | the reason codes are not: a concrete pair of orders with different reasons |
| Snapshot.ReasonsOrderDecides | src/alr_tw/contracts/provider_snapshot.py:233-267 | some order of the server's receipts changes the reasons exactly when the supplied receipts are all the server's and unambiguous, and one of them shares its id with another server receipt |
| Snapshot.ValuesAreOrderFree | src/alr_tw/contracts/provider_snapshot.py:196-280 | the order of the supplied receipts never changes the reasons |
| Snapshot.OwnedDecides | src/alr_tw/contracts/provider_snapshot.py:240-250 | a permutation of the server's list is owned throughout exactly when no id is given to two different receipts |
| Conformance.ValidateConformance | src/alr_tw/contracts/provider_conformance.py:171-362 | conforming exactly when nothing blocks and the question is answered; eligible ids are all of the payload's or none; ordinary eligibility coincides with conforming; the blocker codes are exactly those whose condition holds; sources that conform rest on server-held, unexpired, matched objects under a current permutation of the server's receipts; the result's validator always passes |
| Conformance.CheckSources | src/alr_tw/contracts/provider_conformance.py:231-262 | no objection exactly when every listed source is server-bound, identity-matched, eligible, current and of an expected kind |
| Conformance.CheckEvidence | src/alr_tw/contracts/provider_conformance.py:264-282 | no objection exactly when every listed span is server-bound, matched, claim-eligible and of an eligible source |
| Conformance.Qualify | src/alr_tw/contracts/provider_conformance.py:318-342 | an unblocked result conforms exactly when it answers: found sources under receipts, or a scoped absence |
| Conformance.PassesIsOrderFree | src/alr_tw/contracts/provider_conformance.py:284-295 | whether a result passes does not depend on the order of the receipts on either side |
| ConformanceLaws.FindingsConform | src/alr_tw/contracts/provider_conformance.py:171-360 | a result with findings conforms exactly when it answers the right request in full, names sources, each source and span is held by the server as it should be, and the receipts are a reliable permutation of the server's |
| ConformanceLaws.AbsenceConforms | src/alr_tw/contracts/provider_conformance.py:171-360 | an absence conforms exactly when nothing was found in a stated scope; receipts may be missing unless required |
| ConformanceLaws.PassingMeans | src/alr_tw/contracts/provider_conformance.py:171-316 | nothing blocks a result exactly when, in the fields of payload, request and server, it is addressed, bound, certified and coherent |
| ConformanceLaws.SourceObjectionsAreTrue | src/alr_tw/contracts/provider_conformance.py:225-262 | no objection exactly for a source the server holds as it should be; each objection names a true fault, in order |
| ConformanceLaws.EvidenceObjectionsAreTrue | src/alr_tw/contracts/provider_conformance.py:264-282 | no objection exactly for a span the server holds as it should be; each objection names a true fault |
| Sufficiency.EvaluateSufficiency | src/alr_tw/contracts/research.py:344-523 | mode, level, missing obligations and sorted reasons are those of the run's facts; whatever codes are called retryable, the mode depends on the facts alone; sufficient research reports no reason |
| Sufficiency.DegradationNeverHelps | src/alr_tw/contracts/research.py:344-523 | adding codes or gaps, dropping evidence, clearing checks or un-completing obligations never raises the answer mode |
| SufficiencyLaws.ModeMeans | src/alr_tw/contracts/research.py:344-523 | the mode in the fields of the run: refused unless every required obligation is completed, the flag each required kind needs is set, and the run is live, error-free and has evidence; conditional while anything is partial, limited, degraded or a demanded counter search is missing |
| SufficiencyLaws.UnneededFlagsAreFree | src/alr_tw/contracts/research.py:427-434 | setting or clearing a coverage flag that no required obligation needs changes neither mode nor level nor reasons |
| SufficiencyLaws.LevelMeans | src/alr_tw/contracts/research.py:526-535 | a retry is asked for exactly after a timeout, an error that names a passing condition, or a required obligation blocked by one; otherwise the level follows the mode |
| SufficiencyLaws.BlockedKindsAreNamed | src/alr_tw/contracts/research.py:344-426 | each kind of required obligation that is blocked for good is reported by its own name, and no other is |
| SufficiencyLaws.MissingChecksAreNamed | src/alr_tw/contracts/research.py:427-470 | without a retry to wait for, each missing check is reported by the name of the kind that needs it, and no other is |
| SufficiencyLaws.IncompleteChecksAreNamed | src/alr_tw/contracts/research.py:435-470 | without a retry to wait for, incomplete verification and an unsupported version of the law are reported exactly when verification or legal time was demanded |
| Finalization.BuildContract | src/alr_tw/contracts/finalization.py:396-618 | building fails exactly on a repeated entry or a list over its limit, computed qualifications and blockers included; the contract has the mode, qualifications, summary, gates and exactly the blocker codes and actions of the facts, and passes its own validator |
| Finalization.BuildFromRun | src/alr_tw/contracts/finalization.py:621-720 | the contract of a run is built from its evaluated facts alone, its two gates say what the fields of the run's coverage and obligations say, and it fails exactly on repeated source or evidence ids or a list over its limit |
| Finalization.BuiltPosture | src/alr_tw/contracts/finalization.py:263-307 | a contract built from facts fails the posture validator only through a repeated entry or a list over its limit |
| Finalization.ValidatePosture | src/alr_tw/contracts/finalization.py:263-307 | the posture validator accepts exactly the contracts with unique lists within their limits, matching preview, and an ordinary mode that meets every ordinary gate |
| Finalization.ValidateFinalization | src/alr_tw/contracts/finalization.py:723-958 | for any contract, valid exactly when it is admissible for the server's run, safe to draft exactly when also no refusal; otherwise the mode is refusal; the blocker codes are exactly those whose condition holds, one blocker to a code and no retry added |
| Finalization.LastBlockersAreKept | src/alr_tw/contracts/finalization.py:941-956 | of the blockers with one code exactly the last is kept |
| FinalizationLaws.SafeMeansGrounded | src/alr_tw/contracts/finalization.py:723-958 | safe to draft implies a server run whose obligations, flags, codes and evidence support an answer, unblocked, with all ids within it, the gates of its coverage, every server qualification present, a mode not above the one the server itself would build, and for the ordinary mode receipts that are a reliable permutation of the server's |
| FinalizationLaws.ServerBuiltIsSafe | src/alr_tw/contracts/finalization.py:621-958 | the contract built from a run with unique ids, validated against that run with the same receipts and clock, is safe to draft exactly when it is no refusal and has a source |
| FinalizationLaws.RunFits | src/alr_tw/contracts/finalization.py:621-720 | a run fits a contract exactly when its sources, receipts, limitations, qualifications and blockers are within their limits |
| FinalizationLaws.TooManyTimeouts | src/alr_tw/contracts/finalization.py:621-720 | a run with more timeout codes than qualifications fit can neither be built nor be validated against |
| FinalizationLaws.OwnRunIsRebuildable | src/alr_tw/contracts/finalization.py:723-958 | whenever a contract can be built from a run, validation against that run does not fail for want of room |
| FinalizationLaws.PostureNeverUpgrades | src/alr_tw/contracts/finalization.py:519-586 | the built mode is at most the evaluated mode |
| FinalizationLaws.OrdinaryFromRun | src/alr_tw/contracts/finalization.py:519-586 | the built mode is ordinary exactly for a run that supports an answer without reservation, is unblocked and sourced, with counter coverage not withdrawn, reliable receipts and no attached veto |
| FinalizationLaws.BlockingFromRun | src/alr_tw/contracts/finalization.py:543-581 | a run's contract is blocked exactly when the run supports no answer, it carries a blocker, its receipts are not reliable, or a veto is attached |
| FinalizationLaws.PostureDegrades | src/alr_tw/contracts/finalization.py:621-720 | worsening a run never raises the built mode |
| FinalizationLaws.OrdinaryAgrees | src/alr_tw/contracts/finalization.py:284-306 | the posture validator accepts a contract as ordinary exactly where the builder would choose the ordinary mode for the facts the contract states |
| FinalizationLaws.BuiltSaysRun | src/alr_tw/contracts/finalization.py:621-720 | the built contract names run and level, is complete exactly when the required obligations are, carries the run's ids with a digest and a preview of 512, keeps its blockers in place, and asks for a retry just for research to be retried |
| Evaluation.ValidateRuns | src/alr_tw/evaluation/research_tasks.py:881-902 | runs validate exactly when ids and task-mode slots are unique and each run answers a manifest task with its question |
| Evaluation.PairRuns | src/alr_tw/evaluation/research_tasks.py:933-1014 | pairs and rejections are those of the tasks in order, exactly when the runs validate |
| EvaluationPairing.PairingIsFair | src/alr_tw/evaluation/research_tasks.py:951-1013 | two runs of opposite modes are paired exactly when they share task, model and configuration and both completed |
| EvaluationPairing.PairsSay | src/alr_tw/evaluation/research_tasks.py:951-1013 | each pair names the task, question, manifest, model and configuration of two comparable imported runs of opposite modes |
| EvaluationPairing.TasksConserved | src/alr_tw/evaluation/research_tasks.py:933-1014 | pairs plus rejections are as many as the tasks |
| EvaluationPairing.RunsConserved | src/alr_tw/evaluation/research_tasks.py:1122-1145 | runs are twice the pairs plus the unpaired runs, and at most two to a task |
| EvaluationPairing.ModeRunsFew | src/alr_tw/evaluation/research_tasks.py:1168-1180 | the runs of one mode never outnumber the tasks |
| EvaluationReport.ValidateReviews | src/alr_tw/evaluation/research_tasks.py:905-930 | reviews validate exactly when ids are unique and each names an unaltered run with its task and mode |
| EvaluationReport.AggregateMetric | src/alr_tw/evaluation/research_tasks.py:1028-1077 | the aggregate reports exactly the accepted scores; its validator holds exactly when the runs do not outnumber the tasks |
| EvaluationReport.PairedMetric | src/alr_tw/evaluation/research_tasks.py:1080-1119 | the comparison averages exactly the pairs in which both runs are scored, and its validator always holds |
| EvaluationReport.HarnessMetrics | src/alr_tw/evaluation/research_tasks.py:1168-1180 | no aggregate of a validated run list can fail its validator |
| EvaluationReport.CoverTasks | src/alr_tw/evaluation/research_tasks.py:1146-1167 | each task is shown with the pair status, runs and review states the pairing gave it |
| EvaluationReport.ScoreEvaluation | src/alr_tw/evaluation/research_tasks.py:1122-1206 | scoring fails only on invalid runs or reviews; the report conserves tasks and runs and all its validators hold |
| EvaluationLaws.OneMoreRun | src/alr_tw/evaluation/research_tasks.py:1028-1077 | one more run adds one to the runs, to the reviewed or unreviewed ones as it has a usable review, and exactly the score that review gives to the sum and the counts |
| EvaluationLaws.AggregateOfNone | src/alr_tw/evaluation/research_tasks.py:1028-1077 | without runs every count is zero and every sum, mean and rate is missing |
| EvaluationLaws.OneMorePair | src/alr_tw/evaluation/research_tasks.py:1080-1119 | one more pair counts, and adds its two scores to what the two means stand for, exactly when a usable review scores both of its runs |
| EvaluationLaws.ComparisonRated | src/alr_tw/evaluation/research_tasks.py:1080-1119 | the other pairs are missing, coverage is the share compared, and the difference is the mean without the harness less the mean with it |
| EvaluationLaws.EveryMetricOnce | src/alr_tw/evaluation/research_tasks.py:1168-1180 | there is one aggregate and one comparison for each of the five metrics, in their order |
| EvaluationLaws.CoverageMeans | src/alr_tw/evaluation/research_tasks.py:1146-1167 | each task shows the run imported for it in either mode, reviewed exactly when it has a usable review, and missing when there is none |
| EvaluationLaws.FailedAre | src/alr_tw/evaluation/research_tasks.py:1122-1145 | the failed runs are those whose status is not completed |
| EvaluationLaws.AggregateCountsNest | src/alr_tw/evaluation/research_tasks.py:441-480 | the validator of an aggregate accepts exactly nested counts, missing ones as the rest, and sums and rates in range |
| EvaluationLaws.ComparisonCountsNest | src/alr_tw/evaluation/research_tasks.py:481-523 | the validator of a comparison accepts exactly compared pairs among the pairs, missing ones as the rest, and rates in range |
| EvaluationLaws.ReportCountsNest | src/alr_tw/evaluation/research_tasks.py:524-558 | the validator of the report accepts exactly two expected runs to a task, runs made up of completed and failed ones, and no more pairs than tasks |
| Citations.PrepareCitations | src/alr_tw/research/citation_preparation.py:13-73 | the staged and then settled proposals are those of the specification, in order |
| Citations.PlaceMeans | src/alr_tw/research/citation_preparation.py:34-49 | each placement status says exactly how often and how near the citation text occurs |
| Citations.ProposalsAreExact | src/alr_tw/research/citation_preparation.py:34-66 | a proposed or unchanged offset selects the text at its only occurrence within the window; others keep their placement unless the draft needs revision |
| Citations.DraftReasons | src/alr_tw/research/citation_preparation.py:50-57 | the draft has to be revised exactly when its relations do not hold or some cited span is not eligible, and the reasons are exactly those |
| Citations.RevisionsNameReasons | src/alr_tw/research/citation_preparation.py:58-66 | an item to be revised names the reasons of the draft, sorted and each once; no other item names any |
| Citations.PreparationIsIdempotent | src/alr_tw/research/citation_preparation.py:13-73 | after applying all proposals, preparing again leaves every offset unchanged and every unresolved status as it was |
| Citations.TextRanges | src/alr_tw/research/draft_workspace.py:32-38 | exactly the first 32 occurrences, overlaps included; truncated exactly when more exist |
| Citations.MatchesAreAll | src/alr_tw/research/draft_workspace.py:32-38 | the listed matches are all positions at which the text occurs, in ascending order |
| Identity.RankAndDedupe | src/alr_tw/research/judgment_identity.py:100-133 | the dictionaries yield one output per key in first-occurrence order of the ranked list |
| Identity.DedupeConserves | src/alr_tw/research/judgment_identity.py:100-133 | output keys are exactly the distinct input keys, once each; each entry is the best of its key, a direct one keeping its lookup with the best candidate, and unites the key's merged ids |
| Identity.HeldIs | src/alr_tw/research/judgment_identity.py:106-121 | the entry held for a key is its first item; a direct one also carries the first candidate |
| Identity.RankRanks | src/alr_tw/research/judgment_identity.py:105-105 | the ranking is a sorted permutation of the identities |
| Identity.SameKey | src/alr_tw/research/judgment_identity.py:22-28 | two identities are merged exactly when both have one judgment id, or neither has one and they are one candidate by name, or neither has either and they share the lookup |
| Identity.ProvidersCanCollide | src/alr_tw/research/judgment_identity.py:26-27 | candidates of two providers are merged in a concrete case, because a provider id holds the separator |
| Identity.PlainProvidersApart | src/alr_tw/research/judgment_identity.py:26-27 | candidates have one name exactly when they are the same, as long as no provider id holds the separator |
| Numerals.Number | src/alr_tw/research/query_preparation.py:66-82 | a numeral is read exactly when it is ASCII digits, or Chinese digits with strictly decreasing units; its value is the positional value or the worth of its units |
| Numerals.ReadUnits | src/alr_tw/research/query_preparation.py:72-82 | the running total computes the worth of the units, failing exactly when they do not strictly decrease |
| Numerals.UnitsInRange | src/alr_tw/research/query_preparation.py:72-82 | a numeral with units denotes a number from 10 to 9999 |
| Numerals.WriteThenRead | src/alr_tw/research/query_preparation.py:66-82 | reading the written form of any number from 10 to 9999 gives the number |
| Numerals.DecimalThenRead | src/alr_tw/research/query_preparation.py:66-71 | any number written in decimal places, in ASCII or in Chinese digits, is read back |

## Left out

- Building the plan of the bounded search: query compaction is a matter of regular expressions; plans are taken as any that pass their validator.
- Cross-run order of reported ids: verified source and evidence ids of a run are modelled as sets, because the code collects earlier ones in a set before listing them.
- `CounterExecutor.SeedCandidates`: the folding of white space and case in candidate keys is a function parameter.
- Field patterns and length limits of the records that come in: they are conditions on inputs. The limits on what is computed are modelled for the findings of a resolution, for everything the lineage builder makes and for finalization contracts.
- `Finalization.BuildContract`: the texts of qualifications, actions and blockers are short names; only their presence and codes are stated.
- `Finalization.ValidateFinalization`: the claim-support summary and the privacy decision enter as two flags, and the fields that only echo inputs are not carried.
- Structured refusals: a projection of a blocked result without a decision of its own.
- `Sufficiency.EvaluateSufficiency`: upper-casing of reason codes is a function parameter.
- `Conformance.ValidateConformance`: its limits of 128 source and 256 evidence ids, which only echo the payload, are not modelled as errors; the privacy scan of metadata is a parameter of the payload, and a payload that does not parse is one case.
- `JudgmentLineage.BuildLineage`: court levels, labels and rationale texts are not carried; a court level is known or unknown.
- Text classification of dispositions: the codes of a span are given with it.
- `AuthorityLineage.ValidateGraph`: the limits of 512 nodes, 1024 edges and 256 treatments are conditions on inputs; the built contracts stay far below them.
- `AuthorityLineage.ValidateLineage`: time stamps of bounded misses and the texts of scopes are not carried.
- `Citations.PrepareCitations`: the relationship check of the whole draft and the eligibility of a cited span are function parameters.
- `Identity.RankAndDedupe`: the sort key is any ranking that puts direct identities first; relevance scores and resolution of identifiers from URLs are not modelled.
- `EvaluationReport.ScoreEvaluation`: metric values are reals, so rounding and non-finite numbers do not occur; warnings and manifest texts are not carried.
- `Numerals.Number`: only the reading of numerals; date phrases, their regular expressions and the normalisation of queries are not modelled.
- Providers, storage, the command line, the network and the surrounding research service: input and output without decisions that can be stated here.
- State tables, the budget latch and flat case checks elsewhere in the repository: they would only add easy members.
