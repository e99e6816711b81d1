/** Which candidate keys a later run may verify again. */
module CounterRepeats {
  import opened Collections
  import opened CounterAuthority
  import opened CounterStep
  import opened CounterRun
  import opened CounterHistory
  import opened CounterStuck

  ghost predicate HasKey(calls: seq<VerifyCall>, key: string) {
    exists c | c in calls :: c.key == key
  }

  /** Every search returns the candidate, and each call is free. */
  function Offering(fold: string -> string, c: Candidate): Providers {
    Providers(
      (n: nat, text: string, limit: nat) => Answered(ProviderResult(ProviderFound, [c], None, "", true)),
      (n: nat, x: Candidate) => Consumes(false),
      (n: nat, x: Candidate) => VerifyTimedOut,
      fold)
  }

  lemma OfferedIsCalled(plan: Plan, fold: string -> string, c: Candidate, queryId: string, s: Shared)
    requires CandidateKey(fold, c) !in s.seen
    ensures Examine(plan, Offering(fold, c), queryId, Fresh(s), c).shared.calls
            == s.calls + [VerifyCall(queryId, c, CandidateKey(fold, c), false, VerifyTimedOut)]
  {
    hide CandidateKey;
  }

  lemma AskOffers(plan: Plan, fold: string -> string, c: Candidate, previous: seq<QueryProgress>, st: RunState, q: Query, r: QueryProgress)
    requires 1 <= plan.scope.maxCandidates && CandidateKey(fold, c) !in st.shared.seen
    requires Find(previous, q.queryId) == Some(r) && !r.Terminal()
    ensures HasKey(AskQuery(plan, Offering(fold, c), previous, st, q).shared.calls, CandidateKey(fold, c))
  {
    hide CandidateKey;
    var p := Offering(fold, c);
    var result := ProviderResult(ProviderFound, [c], None, "", true);
    var s := Entered(st.shared, Answered(result));
    assert p.search(|st.searches|, q.text, plan.scope.maxCandidates) == Answered(result);
    OfferedIsCalled(plan, fold, c, q.queryId, s);
    hide Offering;
    hide Examine;
    hide SearchRecord;
    hide SearchReasons;
    assert Limited(plan, result) == [c];
    assert ExamineFirst(plan, p, q.queryId, Fresh(s), [c], 0) == Fresh(s);
    assert ExamineFirst(plan, p, q.queryId, Fresh(s), [c], 1) == Examine(plan, p, q.queryId, Fresh(s), c);
    var calls := Examine(plan, p, q.queryId, Fresh(s), c).shared.calls;
    assert calls[|calls| - 1].key == CandidateKey(fold, c) && calls[|calls| - 1] in calls;
  }

  /** Calls are never taken back within a run. */
  lemma {:induction false} CallsStay(plan: Plan, p: Providers, resume: Option<Progress>, i: nat, n: nat, key: string)
    requires plan.Valid() && Resumable(plan, resume) && i <= n <= |plan.queries|
    requires HasKey(AskFirst(plan, p, resume, i).shared.calls, key)
    ensures HasKey(AskFirst(plan, p, resume, n).shared.calls, key)
  {
    hide AskFirst;
    hide Good;
    hide Grows;
    hide Accounts;
    if i < n {
      CallsStay(plan, p, resume, i, n - 1, key);
      var r := NextQuery(plan, p, resume, n - 1);
      var before, after := AskFirst(plan, p, resume, n - 1).shared.calls, AskFirst(plan, p, resume, n).shared.calls;
      assert before <= after;
      var k :| 0 <= k < |before| && before[k].key == key;
      assert after[k] == before[k] && after[k] in after;
    }
  }

  lemma FirstOpen(records: seq<QueryProgress>, r: QueryProgress) returns (i: nat)
    requires r in records && !r.Terminal()
    ensures i < |records| && !records[i].Terminal() && forall k | 0 <= k < i :: records[k].Terminal()
  {
    var j :| 0 <= j < |records| && records[j] == r;
    i := 0;
    while records[i].Terminal()
      invariant i <= j && forall k | 0 <= k < i :: records[k].Terminal()
      decreases j - i
    {
      i := i + 1;
    }
  }

  lemma OfferingRun(plan: Plan, resume: Option<Progress>, fold: string -> string, c: Candidate, r: QueryProgress)
    requires plan.Valid() && Resumable(plan, resume) && resume.Some?
    requires r in resume.value.queries && !r.Terminal() && CandidateKey(fold, c) !in Seeds(resume.value.queries)
    ensures HasKey(Execute(plan, Offering(fold, c), resume).calls, CandidateKey(fold, c))
  {
    hide Good;
    hide Offering;
    hide AskFirst;
    hide AskQuery;
    hide Finish;
    hide Seeds;
    hide StartingAttempts;
    hide CandidateKey;
    var p := Offering(fold, c);
    var i := FirstOpen(resume.value.queries, r);
    NothingToAsk(plan, p, resume, i);
    PreviousIs(plan, resume);
    AskNext(plan, p, resume, i + 1);
    assert AskFirst(plan, p, resume, i).shared.seen == Seeds(resume.value.queries);
    hide Find;
    AskOffers(plan, fold, c, Previous(resume), AskFirst(plan, p, resume, i), plan.queries[i], resume.value.queries[i]);
    CallsStay(plan, p, resume, i + 1, |plan.queries|, CandidateKey(fold, c));
  }

  // ----- Only keys of candidates are verified -------------------------------------------

  /** Some candidate has the key under this folding. */
  ghost predicate IsKey(fold: string -> string, key: string) {
    exists c :: CandidateKey(fold, c) == key
  }

  ghost predicate AllKeys(fold: string -> string, calls: seq<VerifyCall>) {
    forall call | call in calls :: IsKey(fold, call.key)
  }

  lemma SettledCalls(w: Work, c: Candidate, key: string, outcome: VerifyOutcome)
    ensures Settled(w, c, key, outcome).shared.calls == w.shared.calls
  {
  }

  lemma ExamineCalls(plan: Plan, p: Providers, queryId: string, w: Work, c: Candidate)
    ensures var calls := Examine(plan, p, queryId, w, c).shared.calls;
            calls == w.shared.calls
            || exists charged, outcome :: calls == w.shared.calls + [VerifyCall(queryId, c, CandidateKey(p.fold, c), charged, outcome)]
  {
    hide CandidateKey;
    hide Settled;
    var key, cost := CandidateKey(p.fold, c), p.cost(w.shared.costCalls, c);
    var outcome := p.verify(|w.shared.calls|, c);
    SettledCalls(Called(Listed(w, c, cost), VerifyCall(queryId, c, key, Charges(cost), outcome)), c, key, outcome);
  }

  lemma ExamineKeys(plan: Plan, p: Providers, queryId: string, w: Work, c: Candidate)
    requires AllKeys(p.fold, w.shared.calls)
    ensures AllKeys(p.fold, Examine(plan, p, queryId, w, c).shared.calls)
  {
    ExamineCalls(plan, p, queryId, w, c);
    hide Examine;
    hide CandidateKey;
    assert IsKey(p.fold, CandidateKey(p.fold, c));
    hide IsKey;
  }

  lemma {:induction false} ExamineFirstKeys(plan: Plan, p: Providers, queryId: string, w: Work, cs: seq<Candidate>, n: nat)
    requires n <= |cs| && AllKeys(p.fold, w.shared.calls)
    ensures AllKeys(p.fold, ExamineFirst(plan, p, queryId, w, cs, n).shared.calls)
  {
    hide Examine;
    hide AllKeys;
    if n > 0 {
      ExamineFirstKeys(plan, p, queryId, w, cs, n - 1);
      ExamineKeys(plan, p, queryId, ExamineFirst(plan, p, queryId, w, cs, n - 1), cs[n - 1]);
    }
  }

  lemma AskKeys(plan: Plan, p: Providers, previous: seq<QueryProgress>, st: RunState, q: Query)
    requires AllKeys(p.fold, st.shared.calls)
    ensures AllKeys(p.fold, AskQuery(plan, p, previous, st, q).shared.calls)
  {
    hide AllKeys;
    hide ExamineFirst;
    hide SearchRecord;
    hide SearchReasons;
    var outcome := p.search(|st.searches|, q.text, plan.scope.maxCandidates);
    var cs := Limited(plan, AsResult(outcome));
    ExamineFirstKeys(plan, p, q.queryId, Fresh(Entered(st.shared, outcome)), cs, |cs|);
  }

  lemma {:induction false} RunKeys(plan: Plan, p: Providers, resume: Option<Progress>, n: nat)
    requires n <= |plan.queries|
    ensures AllKeys(p.fold, AskFirst(plan, p, resume, n).shared.calls)
  {
    hide AskQuery;
    hide StartingAttempts;
    hide Seeds;
    if n > 0 {
      RunKeys(plan, p, resume, n - 1);
      AskKeys(plan, p, Previous(resume), AskFirst(plan, p, resume, n - 1), plan.queries[n - 1]);
    }
  }

  lemma OneMore(runs: seq<Providers>, p: Providers)
    ensures (runs + [p])[..|runs + [p]| - 1] == runs && (runs + [p])[|runs + [p]| - 1] == p
  {
  }

  /** With the folding of keys given, a next run can verify a key, whether or not it was verified
      before, exactly when it is a key at all, the records do not seed it and some query is unfinished. */
  lemma KeyCanRecur(plan: Plan, runs: seq<Providers>, fold: string -> string, key: string)
    requires plan.Valid() && runs != []
    ensures (exists p: Providers :: p.fold == fold && HasKey(LastRun(plan, runs + [p]).calls, key)) <==>
              && IsKey(fold, key) && key !in Seeds(Records(plan, runs))
              && exists r | r in Records(plan, runs) :: !r.Terminal()
  {
    hide Execute;
    hide Seeds;
    hide Good;
    hide CandidateKey;
    HistoryResumable(plan, runs);
    PreviousIs(plan, Resume(plan, runs));
    if p: Providers :| p.fold == fold && HasKey(LastRun(plan, runs + [p]).calls, key) {
      OneMore(runs, p);
      ResultKeys(plan, p, Resume(plan, runs));
      LastKeys(plan, runs + [p]);
      if forall r | r in Records(plan, runs) :: r.Terminal() {
        FinishedIsKept(plan, runs + [p]);
      }
    }
    if r :| r in Records(plan, runs) && !r.Terminal() && key !in Seeds(Records(plan, runs)) && IsKey(fold, key) {
      var c :| CandidateKey(fold, c) == key;
      OneMore(runs, Offering(fold, c));
      OfferingRun(plan, Resume(plan, runs), fold, c, r);
      assert Offering(fold, c).fold == fold;
    }
  }

  lemma LastKeys(plan: Plan, runs: seq<Providers>)
    requires runs != []
    ensures AllKeys(runs[|runs| - 1].fold, LastRun(plan, runs).calls)
  {
    hide AskFirst;
    hide Finish;
    RunKeys(plan, runs[|runs| - 1], Resume(plan, runs[..|runs| - 1]), |plan.queries|);
  }

  // ----- A key verified twice -----------------------------------------------------------

  const PLAN := Plan("plan", Scope(1, 2), [Query("a", "first", 1), Query("b", "second", 2)])

  /** Its key is its official identifier, not its candidate id. */
  const NAMED := Candidate("c", None, Some("k"), None)

  /** The first search finds the candidate, which verifies; the second one times out. */
  const HALFWAY := Providers(
    (n: nat, text: string, limit: nat) =>
      if n == 0 then Answered(ProviderResult(ProviderFound, [NAMED], None, "", true)) else SearchTimedOut,
    (n: nat, c: Candidate) => Consumes(true),
    (n: nat, c: Candidate) => Checked(PROOF),
    (s: string) => s)

  lemma ExamineNamed(s: Shared)
    requires s.seen == {} && s.attempts == 0
    ensures var w := Examine(PLAN, HALFWAY, "a", Fresh(s), NAMED);
            w.candidateIds == w.verifiedIds == ["c"] && w.verifiedKeys == ["k"] && !w.failed
  {
    assert Evidence("e", true) in PROOF.evidence;
    assert CandidateKey(HALFWAY.fold, NAMED) == "k";
  }

  lemma WorkedNamed(s: Shared)
    requires s.seen == {} && s.attempts == 0
    ensures var w := Worked(PLAN, HALFWAY, PLAN.queries[0], s, ProviderResult(ProviderFound, [NAMED], None, "", true));
            w.candidateIds == w.verifiedIds == ["c"] && w.verifiedKeys == ["k"] && !w.failed
  {
    ExamineNamed(s);
    hide Examine;
    assert Limited(PLAN, ProviderResult(ProviderFound, [NAMED], None, "", true)) == [NAMED];
    assert ExamineFirst(PLAN, HALFWAY, "a", Fresh(s), [NAMED], 0) == Fresh(s);
    assert ExamineFirst(PLAN, HALFWAY, "a", Fresh(s), [NAMED], 1) == Examine(PLAN, HALFWAY, "a", Fresh(s), NAMED);
  }

  lemma NamedRecord(q: Query, w: Work)
    requires w.candidateIds == w.verifiedIds == ["c"] && w.verifiedKeys == ["k"] && !w.failed
    ensures var r := SearchRecord(PLAN, None, q, ProviderResult(ProviderFound, [NAMED], None, "", true), w);
            r.status.Found? && r.candidateIds == ["c"] && r.verifiedKeys == ["k"]
  {
    assert [] + ["c"] == ["c"] && [] + ["k"] == ["k"];
    DedupeSingle("c");
    DedupeSingle("k");
    hide Dedupe;
    hide SearchReasons;
  }

  lemma AskFound(st: RunState)
    requires st.shared.seen == {} && st.shared.attempts == 0 && st.items == [] && st.searches == []
    ensures var t := AskQuery(PLAN, HALFWAY, [], st, PLAN.queries[0]);
            && |t.items| == 1 && |t.searches| == 1
            && t.items[0].status.Found? && t.items[0].candidateIds == ["c"] && t.items[0].verifiedKeys == ["k"]
  {
    hide Worked;
    hide SearchRecord;
    hide SearchReasons;
    var q, result := PLAN.queries[0], ProviderResult(ProviderFound, [NAMED], None, "", true);
    var s := Entered(st.shared, Answered(result));
    assert HALFWAY.search(|st.searches|, q.text, 1) == Answered(result);
    WorkedNamed(s);
    NamedRecord(q, Worked(PLAN, HALFWAY, q, s, result));
  }

  lemma AskTimedOut(st: RunState)
    requires |st.items| == |st.searches| == 1
    ensures var t := AskQuery(PLAN, HALFWAY, [], st, PLAN.queries[1]);
            && t.items == st.items + [ErrorRecord(None, PLAN.queries[1], AsResult(SearchTimedOut))]
  {
    assert HALFWAY.search(|st.searches|, PLAN.queries[1].text, 1) == SearchTimedOut;
    hide ErrorRecord;
    hide ErrorReasons;
  }

  lemma HalfwayRecords()
    ensures PLAN.Valid()
    ensures var records := Records(PLAN, [HALFWAY]);
            && |records| == 2 && records[0].Terminal() && records[0].verifiedKeys == ["k"]
            && !records[1].Terminal() && Seeds(records) == {"c"}
  {
    hide AskQuery;
    hide Execute;
    hide ErrorReasons;
    var st := Start(PLAN, None);
    AskFound(st);
    AskTimedOut(AskQuery(PLAN, HALFWAY, [], st, PLAN.queries[0]));
    assert [HALFWAY][..0] == [];
    assert AskFirst(PLAN, HALFWAY, None, 0) == st;
    assert AskFirst(PLAN, HALFWAY, None, 1) == AskQuery(PLAN, HALFWAY, [], st, PLAN.queries[0]);
    assert AskFirst(PLAN, HALFWAY, None, 2) == AskQuery(PLAN, HALFWAY, [], AskFirst(PLAN, HALFWAY, None, 1), PLAN.queries[1]);
    hide AskFirst;
    RecordsAre(PLAN, [HALFWAY]);
    var records := Records(PLAN, [HALFWAY]);
    hide Records;
    assert records[..1][..0] == [];
    assert Seeds(records) == Seeds(records[..1]) + SeedOf(records[1]);
    assert Seeds(records[..1]) == SeedOf(records[0]);
  }

  /** The seeds of a finished query are candidate ids: its key can be verified again. */
  lemma VerifiedTwice()
    ensures var records := Records(PLAN, [HALFWAY]); |records| == 2 && records[0].Terminal() && "k" in records[0].verifiedKeys
    ensures exists p: Providers :: p.fold == HALFWAY.fold && HasKey(LastRun(PLAN, [HALFWAY, p]).calls, "k")
  {
    HalfwayRecords();
    hide LastRun;
    hide Records;
    var records := Records(PLAN, [HALFWAY]);
    assert records[1] in records;
    assert CandidateKey(HALFWAY.fold, NAMED) == "k";
    KeyCanRecur(PLAN, [HALFWAY], HALFWAY.fold, "k");
    var p: Providers :| p.fold == HALFWAY.fold && HasKey(LastRun(PLAN, [HALFWAY] + [p]).calls, "k");
    assert [HALFWAY] + [p] == [HALFWAY, p];
  }
}
