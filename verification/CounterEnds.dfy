/** Exactly when a run ends a query, in terms of what is known before its search: the earlier
    record, the keys already seen, the attempts already made, and what the providers would answer. */
module CounterEnds {
  import opened Collections
  import opened CounterAuthority
  import opened CounterStep
  import opened CounterRun
  import opened CounterHistory
  import opened CounterStuck

  // ----- The candidates that will be verified -------------------------------------------

  function Keys(fold: string -> string, cs: seq<Candidate>): set<string> {
    set c | c in cs :: CandidateKey(fold, c)
  }

  function Ids(cs: seq<Candidate>): seq<string> {
    seq(|cs|, i requires 0 <= i < |cs| => cs[i].candidateId)
  }

  /** The candidates whose keys are neither seen yet nor listed before, in their order. */
  function New(fold: string -> string, seen: set<string>, cs: seq<Candidate>): seq<Candidate> {
    if cs == [] then []
    else
      var last, rest := cs[|cs| - 1], New(fold, seen, cs[..|cs| - 1]);
      if CandidateKey(fold, last) in seen + Keys(fold, rest) then rest else rest + [last]
  }

  /** Each key that is not seen is taken, and once only. */
  lemma {:induction false} NewIs(fold: string -> string, seen: set<string>, cs: seq<Candidate>)
    ensures Keys(fold, New(fold, seen, cs)) == Keys(fold, cs) - seen
    ensures |New(fold, seen, cs)| == |Keys(fold, cs) - seen|
  {
    hide Keys;
    hide CandidateKey;
    if cs == [] {
      NoKeys(fold);
    } else {
      var rest, last := cs[..|cs| - 1], cs[|cs| - 1];
      var key, before := CandidateKey(fold, last), New(fold, seen, rest);
      NewIs(fold, seen, rest);
      assert cs == rest + [last];
      OneMoreKey(fold, rest, last);
      OneMoreKey(fold, before, last);
      KeyTaken(Keys(fold, rest), seen, Keys(fold, before), key);
    }
  }

  lemma KeyTaken(listed: set<string>, seen: set<string>, taken: set<string>, key: string)
    requires taken == listed - seen
    ensures if key in seen + taken then listed + {key} - seen == taken
            else listed + {key} - seen == taken + {key} && |taken + {key}| == |taken| + 1
  {
  }

  lemma NoKeys(fold: string -> string)
    ensures Keys(fold, []) == {}
  {
  }

  /** How many of the candidates consume budget when their costs are asked for from call k on. */
  function Cost(p: Providers, k: nat, cs: seq<Candidate>): nat {
    if cs == [] then 0
    else Cost(p, k, cs[..|cs| - 1]) + Count(Charges(p.cost(k + |cs| - 1, cs[|cs| - 1])))
  }

  /** No cost hook raises, and every candidate verifies. */
  ghost predicate AllVerify(p: Providers, s: Shared, cs: seq<Candidate>) {
    forall k | 0 <= k < |cs| :: p.cost(s.costCalls + k, cs[k]).Consumes? && Verifies(p.verify(|s.calls| + k, cs[k]))
  }

  /** The budget left covers the candidates that consume it. */
  predicate Affords(plan: Plan, p: Providers, s: Shared, cs: seq<Candidate>) {
    var cost := Cost(p, s.costCalls, cs);
    cost == 0 || s.attempts + cost <= plan.scope.maxVerifications
  }

  ghost predicate Clean(p: Providers, s: Shared, cs: seq<Candidate>, w: Work) {
    && !w.failed && !w.stopped && w.verifiedIds == w.candidateIds == Ids(cs)
    && w.shared.seen == s.seen + Keys(p.fold, cs)
    && w.shared.attempts == s.attempts + Cost(p, s.costCalls, cs)
    && w.shared.costCalls == s.costCalls + |cs| && |w.shared.calls| == |s.calls| + |cs|
  }

  lemma OneMoreId(cs: seq<Candidate>, c: Candidate)
    ensures Ids(cs + [c]) == Ids(cs) + [c.candidateId]
  {
  }

  lemma OneMoreKey(fold: string -> string, cs: seq<Candidate>, c: Candidate)
    ensures Keys(fold, cs + [c]) == Keys(fold, cs) + {CandidateKey(fold, c)}
  {
    hide CandidateKey;
    assert forall x :: x in cs + [c] <==> x in cs || x == c;
  }

  lemma OneMoreCost(p: Providers, k: nat, cs: seq<Candidate>, c: Candidate)
    ensures Cost(p, k, cs + [c]) == Cost(p, k, cs) + Count(Charges(p.cost(k + |cs|, c)))
  {
    assert (cs + [c])[..|cs|] == cs;
  }

  lemma OneMoreVerifies(p: Providers, s: Shared, cs: seq<Candidate>, c: Candidate)
    ensures AllVerify(p, s, cs + [c]) <==>
              AllVerify(p, s, cs) && p.cost(s.costCalls + |cs|, c).Consumes? && Verifies(p.verify(|s.calls| + |cs|, c))
  {
    hide Verifies;
    var all := cs + [c];
    assert all[|cs|] == c;
    assert forall k | 0 <= k < |cs| :: all[k] == cs[k];
  }

  /** A new candidate leaves the work clean exactly when it is afforded and verifies. */
  lemma ExamineNext(plan: Plan, p: Providers, queryId: string, s: Shared, cs: seq<Candidate>, w: Work, c: Candidate)
    requires Clean(p, s, cs, w) && AllVerify(p, s, cs) && Affords(plan, p, s, cs)
    requires CandidateKey(p.fold, c) !in w.shared.seen
    ensures var next := Examine(plan, p, queryId, w, c);
            if AllVerify(p, s, cs + [c]) && Affords(plan, p, s, cs + [c]) then Clean(p, s, cs + [c], next) else next.failed
  {
    OneMoreId(cs, c);
    OneMoreKey(p.fold, cs, c);
    OneMoreCost(p, s.costCalls, cs, c);
    OneMoreVerifies(p, s, cs, c);
    hide AllVerify;
    hide Ids;
    hide Keys;
    hide Cost;
    hide CandidateKey;
  }

  lemma FailedStays(plan: Plan, p: Providers, queryId: string, w: Work, c: Candidate)
    requires w.failed
    ensures Examine(plan, p, queryId, w, c).failed
  {
    hide CandidateKey;
  }

  /** The work on the first candidates is clean exactly when the new ones among them are afforded
      and all verify. */
  lemma {:induction false} WorkIs(plan: Plan, p: Providers, queryId: string, s: Shared, cs: seq<Candidate>, n: nat)
    requires n <= |cs|
    ensures var due, w := New(p.fold, s.seen, cs[..n]), ExamineFirst(plan, p, queryId, Fresh(s), cs, n);
            if AllVerify(p, s, due) && Affords(plan, p, s, due) then Clean(p, s, due, w) else w.failed
  {
    hide Examine;
    hide AllVerify;
    hide Affords;
    if n == 0 {
      assert cs[..0] == [];
      NothingNew(plan, p, s);
    } else {
      WorkIs(plan, p, queryId, s, cs, n - 1);
      assert cs[..n][..n - 1] == cs[..n - 1];
      WorkStep(plan, p, queryId, s, New(p.fold, s.seen, cs[..n - 1]), ExamineFirst(plan, p, queryId, Fresh(s), cs, n - 1), cs[n - 1]);
      hide Clean;
    }
  }

  lemma WorkStep(plan: Plan, p: Providers, queryId: string, s: Shared, before: seq<Candidate>, w: Work, c: Candidate)
    requires if AllVerify(p, s, before) && Affords(plan, p, s, before) then Clean(p, s, before, w) else w.failed
    ensures var due, next := if CandidateKey(p.fold, c) in s.seen + Keys(p.fold, before) then before else before + [c],
                             Examine(plan, p, queryId, w, c);
            if AllVerify(p, s, due) && Affords(plan, p, s, due) then Clean(p, s, due, next) else next.failed
  {
    hide Examine;
    hide AllVerify;
    hide Affords;
    hide CandidateKey;
    if w.failed {
      FailedStays(plan, p, queryId, w, c);
      FailsOnward(plan, p, s, before, c);
    } else if CandidateKey(p.fold, c) in w.shared.seen {
      SeenIsSkipped(plan, p, queryId, w, c);
    } else {
      ExamineNext(plan, p, queryId, s, before, w, c);
    }
    hide Keys;
    hide Ids;
    hide Cost;
  }

  lemma NothingNew(plan: Plan, p: Providers, s: Shared)
    ensures AllVerify(p, s, []) && Affords(plan, p, s, []) && Clean(p, s, [], Fresh(s))
  {
  }

  lemma SeenIsSkipped(plan: Plan, p: Providers, queryId: string, w: Work, c: Candidate)
    requires CandidateKey(p.fold, c) in w.shared.seen
    ensures Examine(plan, p, queryId, w, c) == w
  {
  }

  lemma FailsOnward(plan: Plan, p: Providers, s: Shared, cs: seq<Candidate>, c: Candidate)
    ensures AllVerify(p, s, cs + [c]) && Affords(plan, p, s, cs + [c]) ==> AllVerify(p, s, cs) && Affords(plan, p, s, cs)
  {
    OneMoreCost(p, s.costCalls, cs, c);
    OneMoreVerifies(p, s, cs, c);
    hide AllVerify;
    hide Cost;
  }

  // ----- When a query ends --------------------------------------------------------------

  /** The search answers in full. */
  predicate Complete(result: ProviderResult) {
    !result.status.ProviderError? && !result.status.ProviderPartial? && result.coverageComplete
  }

  /** The new candidates of a search answered from shared state s. */
  function Due(plan: Plan, p: Providers, s: Shared, result: ProviderResult): seq<Candidate> {
    New(p.fold, s.seen, Limited(plan, result))
  }

  /** The search answers in full, its new candidates are all afforded and verified, and among them
      is every candidate that is still unresolved. */
  ghost predicate Resolves(plan: Plan, p: Providers, s: Shared, result: ProviderResult, prior: Option<QueryProgress>) {
    var due := Due(plan, p, s, result);
    && Complete(result)
    && PriorUnresolvedIds(prior) <= Elems(Ids(due))
    && Affords(plan, p, s, due) && AllVerify(p, s, due)
  }

  predicate StuckBefore(prior: Option<QueryProgress>) {
    prior.Some? && Stuck(prior.value)
  }

  ghost predicate Ends(plan: Plan, p: Providers, s: Shared, result: ProviderResult, prior: Option<QueryProgress>) {
    !StuckBefore(prior) && Resolves(plan, p, s, result, prior)
  }

  /** The answer of the search for query q from state st. */
  function AnswerTo(plan: Plan, p: Providers, st: RunState, q: Query): ProviderResult {
    AsResult(p.search(|st.searches|, q.text, plan.scope.maxCandidates))
  }

  lemma UnresolvedDecides(prior: Option<QueryProgress>, ids: seq<string>)
    requires prior.Some? ==> prior.value.Retryable()
    ensures !UnresolvedAfter(prior, ids) <==> !StuckBefore(prior) && PriorUnresolvedIds(prior) <= Elems(ids)
  {
    DifferenceEmpty(PriorUnresolvedIds(prior), Elems(ids));
    if prior.Some? {
      hide PriorUnresolvedIds;
      hide Elems;
    }
  }

  /** Where the call numbers and the failures before the search make no difference. */
  lemma EnteredAlike(plan: Plan, p: Providers, s: Shared, outcome: SearchOutcome, cs: seq<Candidate>)
    ensures AllVerify(p, Entered(s, outcome), cs) <==> AllVerify(p, s, cs)
    ensures Affords(plan, p, Entered(s, outcome), cs) <==> Affords(plan, p, s, cs)
  {
  }

  lemma WorkDecides(plan: Plan, p: Providers, q: Query, s: Shared, outcome: SearchOutcome, result: ProviderResult)
    ensures var w, due := Worked(plan, p, q, Entered(s, outcome), result), Due(plan, p, s, result);
            && (!w.failed <==> AllVerify(p, s, due) && Affords(plan, p, s, due))
            && (!w.failed ==> w.verifiedIds == w.candidateIds == Ids(due))
  {
    var cs := Limited(plan, result);
    hide AllVerify;
    hide Affords;
    hide ExamineFirst;
    hide New;
    WorkIs(plan, p, q.queryId, Entered(s, outcome), cs, |cs|);
    assert cs[..|cs|] == cs;
    EnteredAlike(plan, p, s, outcome, New(p.fold, s.seen, cs));
  }

  lemma RecordEnds(plan: Plan, p: Providers, s: Shared, q: Query, outcome: SearchOutcome, prior: Option<QueryProgress>)
    requires prior.Some? ==> prior.value.Retryable()
    requires !AsResult(outcome).status.ProviderError?
    ensures var result := AsResult(outcome);
            var w := Worked(plan, p, q, Entered(s, outcome), result);
            var r := SearchRecord(plan, prior, q, result, w);
            && (r.Terminal() <==> Ends(plan, p, s, result, prior))
            && (StuckBefore(prior) && Resolves(plan, p, s, result, prior) ==> Stuck(r))
            && (r.Terminal() ==> Elems(Ids(Due(plan, p, s, result))) <= Elems(r.verifiedIds))
  {
    var result := AsResult(outcome);
    var w := Worked(plan, p, q, Entered(s, outcome), result);
    WorkDecides(plan, p, q, s, outcome, result);
    UnresolvedDecides(prior, w.verifiedIds);
    Merged(Base(prior, q.queryId).verifiedIds, w.verifiedIds);
    hide Worked;
    hide Due;
    hide AllVerify;
    hide Affords;
    hide StuckBefore;
    hide PriorUnresolvedIds;
    hide UnresolvedAfter;
    hide SearchReasons;
    hide Dedupe;
    hide Stuck;
    hide Elems;
    if StuckBefore(prior) && Resolves(plan, p, s, result, prior) {
      StuckIsKept(plan, prior, q, result, w);
    }
  }

  lemma StuckIsKept(plan: Plan, prior: Option<QueryProgress>, q: Query, result: ProviderResult, w: Work)
    requires StuckBefore(prior) && w.verifiedIds == w.candidateIds
    ensures Stuck(SearchRecord(plan, prior, q, result, w))
  {
    var r := prior.value;
    Merged(r.candidateIds, w.candidateIds);
    Merged(r.verifiedIds, w.verifiedIds);
    DifferenceEmpty(Elems(r.candidateIds), Elems(r.verifiedIds));
    assert Elems(r.candidateIds) <= Elems(r.verifiedIds);
    hide Stuck;
    hide SearchReasons;
    hide Dedupe;
    hide Elems;
    SearchStaysStuck(plan, r, q, result, w);
  }

  /** Any one query, whatever its providers do: it ends exactly when its search resolves it and it
      was not stuck, and then every new candidate is verified; a stuck query that is resolved is
      stuck still. */
  lemma AskEnds(plan: Plan, p: Providers, previous: seq<QueryProgress>, st: RunState, q: Query)
    requires Find(previous, q.queryId).Some? ==> Find(previous, q.queryId).value.Retryable()
    ensures var t, prior := AskQuery(plan, p, previous, st, q), Find(previous, q.queryId);
            var result := AnswerTo(plan, p, st, q);
            && |t.items| == |st.items| + 1
            && (t.items[|st.items|].Terminal() <==> Ends(plan, p, st.shared, result, prior))
            && (StuckBefore(prior) && Resolves(plan, p, st.shared, result, prior) ==> Stuck(t.items[|st.items|]))
            && (t.items[|st.items|].Terminal() ==>
                  Elems(Ids(Due(plan, p, st.shared, result))) <= Elems(t.items[|st.items|].verifiedIds))
  {
    hide Worked;
    hide Due;
    hide AllVerify;
    hide Affords;
    hide StuckBefore;
    hide Stuck;
    hide SearchRecord;
    hide SearchReasons;
    hide ErrorReasons;
    hide PriorUnresolvedIds;
    var outcome, prior := p.search(|st.searches|, q.text, plan.scope.maxCandidates), Find(previous, q.queryId);
    hide Find;
    if !AsResult(outcome).status.ProviderError? {
      RecordEnds(plan, p, st.shared, q, outcome, prior);
    }
  }

  /** A query's record is not touched again in the run that wrote it. */
  lemma {:induction false} ItemsStay(plan: Plan, p: Providers, resume: Option<Progress>, n: nat, i: nat)
    requires plan.Valid() && Resumable(plan, resume) && i < n <= |plan.queries|
    ensures |AskFirst(plan, p, resume, i).items| == i && |AskFirst(plan, p, resume, i + 1).items| == i + 1
    ensures |AskFirst(plan, p, resume, n).items| == n
    ensures AskFirst(plan, p, resume, n).items[i] == AskFirst(plan, p, resume, i + 1).items[i]
  {
    hide AskFirst;
    hide Good;
    hide Grows;
    hide Accounts;
    hide Advances;
    hide Traced;
    RunRecords(plan, p, resume, i);
    RunRecords(plan, p, resume, i + 1);
    RunRecords(plan, p, resume, n);
    if i + 1 < n {
      ItemsStay(plan, p, resume, n - 1, i);
      var r := NextQuery(plan, p, resume, n - 1);
    }
  }

  /** What was recorded for a query before the run, if there was an earlier one. */
  function Prior(resume: Option<Progress>, q: nat): Option<QueryProgress>
    requires resume.Some? ==> q < |resume.value.queries|
  {
    if resume.Some? then Some(resume.value.queries[q]) else None
  }

  lemma PriorIs(plan: Plan, resume: Option<Progress>, q: nat)
    requires plan.Valid() && Resumable(plan, resume) && q < |plan.queries|
    ensures Find(Previous(resume), plan.queries[q].queryId) == Prior(resume, q)
  {
    PreviousIs(plan, resume);
    hide Good;
    if resume.Some? {
      FindDistinct(resume.value.queries, q);
    }
  }

  lemma RunEnds(plan: Plan, p: Providers, resume: Option<Progress>, q: nat)
    requires plan.Valid() && Resumable(plan, resume) && q < |plan.queries|
    requires resume.Some? ==> resume.value.queries[q].Retryable()
    ensures var items, st, prior := AskFirst(plan, p, resume, |plan.queries|).items, AskFirst(plan, p, resume, q), Prior(resume, q);
            var result := AnswerTo(plan, p, st, plan.queries[q]);
            && |items| == |plan.queries|
            && (items[q].Terminal() <==> Ends(plan, p, st.shared, result, prior))
            && (StuckBefore(prior) && Resolves(plan, p, st.shared, result, prior) ==> Stuck(items[q]))
            && (items[q].Terminal() ==> Elems(Ids(Due(plan, p, st.shared, result))) <= Elems(items[q].verifiedIds))
  {
    hide Resolves;
    hide Ends;
    hide Due;
    hide Ids;
    hide AnswerTo;
    hide StuckBefore;
    hide Stuck;
    hide Good;
    hide AskFirst;
    hide AskQuery;
    hide Previous;
    hide Find;
    AskNext(plan, p, resume, q + 1);
    PriorIs(plan, resume, q);
    ItemsStay(plan, p, resume, |plan.queries|, q);
    AskEnds(plan, p, Previous(resume), AskFirst(plan, p, resume, q), plan.queries[q]);
  }

  // ----- Over histories -----------------------------------------------------------------

  /** What the last run of a history is asked about a query, and from which state. */
  function LastState(plan: Plan, runs: seq<Providers>, q: nat): RunState
    requires runs != [] && q <= |plan.queries|
  {
    AskFirst(plan, runs[|runs| - 1], Resume(plan, runs[..|runs| - 1]), q)
  }

  function LastAnswer(plan: Plan, runs: seq<Providers>, q: nat): ProviderResult
    requires runs != [] && q < |plan.queries|
  {
    AnswerTo(plan, runs[|runs| - 1], LastState(plan, runs, q), plan.queries[q])
  }

  /** The record of a query before the last run. */
  function PriorRecord(plan: Plan, runs: seq<Providers>, q: nat): Option<QueryProgress>
    requires runs != []
  {
    var rest := runs[..|runs| - 1];
    if rest == [] || q >= |Records(plan, rest)| then None else Some(Records(plan, rest)[q])
  }

  lemma PriorRecordIs(plan: Plan, runs: seq<Providers>, q: nat)
    requires plan.Valid() && runs != [] && q < |plan.queries|
    ensures var resume := Resume(plan, runs[..|runs| - 1]);
            && Resumable(plan, resume)
            && (resume.Some? ==> q < |resume.value.queries|) && PriorRecord(plan, runs, q) == Prior(resume, q)
            && (PriorRecord(plan, runs, q).Some? ==>
                  PriorRecord(plan, runs, q).value.Terminal() || PriorRecord(plan, runs, q).value.Retryable())
  {
    var rest := runs[..|runs| - 1];
    HistoryResumable(plan, rest);
    if rest != [] {
      RecordsAre(plan, rest);
      TerminalMeansVerified(plan, rest);
      hide Records;
      hide Resume;
      assert Records(plan, rest)[q] in Records(plan, rest);
    }
    hide Good;
  }

  /** The last run of any history finishes an unfinished query exactly when it was not stuck and its
      search resolves it: the search answers in full, the candidates it brings that are neither seen
      nor listed twice are afforded and verified, and the unresolved ones are among them. */
  lemma QueryEnds(plan: Plan, runs: seq<Providers>, q: nat)
    requires plan.Valid() && runs != [] && q < |plan.queries|
    requires PriorRecord(plan, runs, q).Some? ==> !PriorRecord(plan, runs, q).value.Terminal()
    ensures |Records(plan, runs)| == |plan.queries|
    ensures var p, s, result := runs[|runs| - 1], LastState(plan, runs, q).shared, LastAnswer(plan, runs, q);
            && (Records(plan, runs)[q].Terminal() <==> Ends(plan, p, s, result, PriorRecord(plan, runs, q)))
            && (StuckBefore(PriorRecord(plan, runs, q)) && Resolves(plan, p, s, result, PriorRecord(plan, runs, q)) ==>
                  Stuck(Records(plan, runs)[q]))
            && (Records(plan, runs)[q].Terminal() ==> Elems(Ids(Due(plan, p, s, result))) <= Elems(Records(plan, runs)[q].verifiedIds))
  {
    hide Records;
    hide Resume;
    hide PriorRecord;
    hide Resolves;
    hide Ends;
    hide Due;
    hide Ids;
    hide StuckBefore;
    hide Stuck;
    hide AnswerTo;
    hide Resumable;
    hide AskFirst;
    PriorRecordIs(plan, runs, q);
    RecordsAre(plan, runs);
    RunEnds(plan, runs[|runs| - 1], Resume(plan, runs[..|runs| - 1]), q);
  }

  /** For the first unfinished query everything is known before the run: the keys seen are the
      seeds, the attempts are those the run starts from, and no provider has been called. */
  lemma FirstOpenIsKnown(plan: Plan, runs: seq<Providers>, q: nat)
    requires plan.Valid() && |runs| > 1 && q < |plan.queries|
    requires q <= |Records(plan, runs[..|runs| - 1])|
    requires forall r | r in Records(plan, runs[..|runs| - 1])[..q] :: r.Terminal()
    ensures var rest, p := runs[..|runs| - 1], runs[|runs| - 1];
            var s := LastState(plan, runs, q).shared;
            && s.seen == Seeds(Records(plan, rest)) && s.attempts == StartingAttempts(Resume(plan, rest))
            && s.costCalls == 0 && s.calls == []
            && LastAnswer(plan, runs, q) == AsResult(p.search(0, plan.queries[q].text, plan.scope.maxCandidates))
  {
    hide Records;
    hide StartingAttempts;
    hide Seeds;
    hide Good;
    hide AskFirst;
    var rest, p := runs[..|runs| - 1], runs[|runs| - 1];
    HistoryResumable(plan, rest);
    RecordsAre(plan, rest);
    hide Resume;
    forall k | 0 <= k < q
      ensures Resume(plan, rest).value.queries[k].Terminal()
    {
      assert Records(plan, rest)[k] in Records(plan, rest)[..q];
    }
    NothingToAsk(plan, p, Resume(plan, rest), q);
    PreviousIs(plan, Resume(plan, rest));
    hide Previous;
  }

  /** Run k of the history resolves what the runs before it left of query q, if they left any. */
  ghost predicate ResolvesAt(plan: Plan, runs: seq<Providers>, k: nat, q: nat)
    requires k < |runs| && q < |plan.queries|
  {
    var first := runs[..k + 1];
    var prior := PriorRecord(plan, first, q);
    || (prior.Some? && prior.value.Terminal())
    || Resolves(plan, runs[k], LastState(plan, first, q).shared, LastAnswer(plan, first, q), prior)
  }

  lemma ResolvedStep(plan: Plan, runs: seq<Providers>, q: nat)
    requires plan.Valid() && |runs| > 1 && q < |plan.queries|
    requires ResolvesAt(plan, runs, |runs| - 1, q)
    ensures |Records(plan, runs[..|runs| - 1])| == |Records(plan, runs)| == |plan.queries|
    ensures var r, t := Records(plan, runs[..|runs| - 1])[q], Records(plan, runs)[q];
            if r.Terminal() then t.Terminal() else (t.Terminal() <==> !Stuck(r)) && (Stuck(r) ==> Stuck(t))
  {
    hide Stuck;
    hide Records;
    hide LastState;
    hide LastAnswer;
    hide Resolves;
    assert runs[..|runs|] == runs;
    PriorRecordIs(plan, runs, q);
    RecordsGrow(plan, runs, |runs| - 1);
    if !Records(plan, runs[..|runs| - 1])[q].Terminal() {
      QueryEnds(plan, runs, q);
    }
  }

  lemma ResolvedBefore(plan: Plan, runs: seq<Providers>, k: nat, q: nat)
    requires k < |runs| - 1 && q < |plan.queries| && ResolvesAt(plan, runs, k, q)
    ensures ResolvesAt(plan, runs[..|runs| - 1], k, q)
  {
    assert runs[..|runs| - 1][..k + 1] == runs[..k + 1];
    hide PriorRecord;
    hide LastState;
    hide LastAnswer;
    hide Resolves;
  }

  /** Over any further runs that each resolve what is left of a query, it is finished at the end if
      and only if it was not stuck before them. */
  lemma {:induction false} StuckDecides(plan: Plan, runs: seq<Providers>, j: nat, q: nat)
    requires plan.Valid() && 1 <= j < |runs| && q < |plan.queries|
    requires forall k | j <= k < |runs| :: ResolvesAt(plan, runs, k, q)
    requires q < |Records(plan, runs[..j])| && Records(plan, runs[..j])[q].Retryable()
    ensures |Records(plan, runs)| == |plan.queries|
    ensures Records(plan, runs)[q].Terminal() <==> !Stuck(Records(plan, runs[..j])[q])
    ensures Stuck(Records(plan, runs[..j])[q]) ==> Stuck(Records(plan, runs)[q])
    decreases |runs|
  {
    hide Records;
    hide ResolvesAt;
    var rest := runs[..|runs| - 1];
    ResolvedStep(plan, runs, q);
    if j < |runs| - 1 {
      assert rest[..j] == runs[..j];
      forall k | j <= k < |rest|
        ensures ResolvesAt(plan, rest, k, q)
      {
        ResolvedBefore(plan, runs, k, q);
      }
      StuckDecides(plan, rest, j, q);
    }
  }
}
