/** One run of the counter-authority search, from the progress it resumes to its result. */
module CounterRun {
  import opened Collections
  import opened CounterAuthority
  import opened CounterStep

  /** One record per query of the plan, in the plan's order. */
  ghost predicate Ordered(plan: Plan, records: seq<QueryProgress>) {
    && |records| == |plan.queries|
    && forall i | 0 <= i < |records| :: records[i].queryId == plan.queries[i].queryId
  }

  /** A run may start fresh or resume records like those an earlier run has written. */
  ghost predicate Resumable(plan: Plan, resume: Option<Progress>) {
    resume.Some? ==> Ordered(plan, resume.value.queries) && forall r | r in resume.value.queries :: Good(r)
  }

  /** What was recorded for query i before the run. */
  function Before(plan: Plan, resume: Option<Progress>, i: nat): QueryProgress
    requires i < |plan.queries|
    requires resume.Some? ==> |resume.value.queries| == |plan.queries|
  {
    if resume.Some? then resume.value.queries[i] else Empty(plan.queries[i].queryId)
  }

  // ----- The dictionary of earlier records ----------------------------------------------

  ghost predicate DistinctIds(records: seq<QueryProgress>) {
    forall i, j | 0 <= i < j < |records| :: records[i].queryId != records[j].queryId
  }

  lemma {:induction false} PutFresh(records: seq<QueryProgress>, r: QueryProgress)
    requires forall x | x in records :: x.queryId != r.queryId
    ensures Put(records, r) == records + [r]
  {
    if records != [] {
      PutFresh(records[1..], r);
      assert [records[0]] + (records[1..] + [r]) == records + [r];
    }
  }

  lemma {:induction false} ByQueryDistinct(records: seq<QueryProgress>)
    requires DistinctIds(records)
    ensures ByQuery(records) == records
  {
    if records != [] {
      ByQueryDistinct(records[..|records| - 1]);
      PutFresh(records[..|records| - 1], records[|records| - 1]);
    }
  }

  lemma {:induction false} FindDistinct(records: seq<QueryProgress>, i: nat)
    requires i < |records| && DistinctIds(records)
    ensures Find(records, records[i].queryId) == Some(records[i])
  {
    if i > 0 {
      assert records[1..][i - 1] == records[i];
      FindDistinct(records[1..], i - 1);
    }
  }

  lemma {:induction false} PutReplaces(records: seq<QueryProgress>, r: QueryProgress)
    requires DistinctIds(records)
    ensures DistinctIds(Put(records, r))
    ensures forall x :: x in Put(records, r) <==> x == r || (x in records && x.queryId != r.queryId)
  {
    if records != [] {
      var first, rest := records[0], records[1..];
      assert records == [first] + rest;
      PutReplaces(rest, r);
      if first.queryId != r.queryId {
        var more := Put(rest, r);
        forall j | 0 <= j < |more|
          ensures more[j].queryId != first.queryId
        {
          assert more[j] in more;
          if more[j] in rest {
            var k :| 0 <= k < |rest| && rest[k] == more[j];
            assert records[k + 1] == more[j];
          }
        }
      } else {
        forall x | x in rest
          ensures x.queryId != r.queryId
        {
          var k :| 0 <= k < |rest| && rest[k] == x;
          assert records[k + 1] == x;
        }
      }
    }
  }

  /** The last record of a query among resumed records, of which there may be several. */
  ghost predicate LastRecord(records: seq<QueryProgress>, r: QueryProgress) {
    exists i | 0 <= i < |records| :: records[i] == r && forall j | i < j < |records| :: records[j].queryId != r.queryId
  }

  lemma LastOfMore(records: seq<QueryProgress>, last: QueryProgress)
    ensures forall r :: LastRecord(records + [last], r) <==> r == last || (LastRecord(records, r) && r.queryId != last.queryId)
  {
    var all := records + [last];
    forall r
      ensures LastRecord(all, r) <==> r == last || (LastRecord(records, r) && r.queryId != last.queryId)
    {
      if r == last {
        assert all[|records|] == r;
      }
      if LastRecord(records, r) && r.queryId != last.queryId {
        var i :| 0 <= i < |records| && records[i] == r && forall j | i < j < |records| :: records[j].queryId != r.queryId;
        assert all[i] == r;
      }
      if LastRecord(all, r) && r != last {
        var i :| 0 <= i < |all| && all[i] == r && forall j | i < j < |all| :: all[j].queryId != r.queryId;
        assert all[|records|].queryId != r.queryId && records[i] == r;
        assert forall j | i < j < |records| :: records[j] == all[j];
      }
    }
  }

  /** Of the resumed records of one query exactly the last one counts. */
  lemma {:induction false} LastRecordCounts(records: seq<QueryProgress>)
    ensures DistinctIds(ByQuery(records))
    ensures forall r :: r in ByQuery(records) <==> LastRecord(records, r)
  {
    if records != [] {
      hide LastRecord;
      hide DistinctIds;
      var rest, last := records[..|records| - 1], records[|records| - 1];
      LastRecordCounts(rest);
      PutReplaces(ByQuery(rest), last);
      LastOfMore(rest, last);
      assert records == rest + [last];
      hide Put;
    }
  }

  lemma PreviousIs(plan: Plan, resume: Option<Progress>)
    requires plan.Valid() && Resumable(plan, resume)
    ensures Previous(resume) == if resume.Some? then resume.value.queries else []
    ensures forall r | r in Previous(resume) :: Good(r)
    ensures forall i | 0 <= i < |plan.queries| ::
              Base(Find(Previous(resume), plan.queries[i].queryId), plan.queries[i].queryId) == Before(plan, resume, i)
  {
    if resume.Some? {
      ByQueryDistinct(resume.value.queries);
      forall i | 0 <= i < |plan.queries|
        ensures Find(resume.value.queries, plan.queries[i].queryId) == Some(resume.value.queries[i])
      {
        FindDistinct(resume.value.queries, i);
      }
    }
  }

  lemma FirstQuery(plan: Plan, p: Providers, resume: Option<Progress>)
    ensures AskFirst(plan, p, resume, 0) == Start(plan, resume)
  {
  }

  /** Query n of the run, seen from the state before it. */
  lemma NextQuery(plan: Plan, p: Providers, resume: Option<Progress>, n: nat) returns (r: QueryProgress)
    requires plan.Valid() && Resumable(plan, resume) && n < |plan.queries|
    ensures Asked(plan, Before(plan, resume, n), AskFirst(plan, p, resume, n), AskFirst(plan, p, resume, n + 1), r)
    ensures Traced(Before(plan, resume, n), AskFirst(plan, p, resume, n), AskFirst(plan, p, resume, n + 1), r)
    ensures r.queryId == plan.queries[n].queryId
  {
    hide AskQuery;
    hide Traced;
    hide Good;
    hide Advances;
    hide Accounts;
    PreviousIs(plan, resume);
    hide Previous;
    r := AskQueryKeeps(plan, p, Previous(resume), AskFirst(plan, p, resume, n), plan.queries[n]);
    assert r.queryId == Before(plan, resume, n).queryId;
    hide Asked;
  }

  // ----- Records ------------------------------------------------------------------------

  ghost predicate Recorded(plan: Plan, resume: Option<Progress>, items: seq<QueryProgress>)
    requires Resumable(plan, resume)
  {
    && |items| <= |plan.queries|
    && forall i | 0 <= i < |items| ::
         items[i].queryId == plan.queries[i].queryId && Good(items[i]) && Grows(Before(plan, resume, i), items[i])
  }

  lemma RecordsStep(plan: Plan, resume: Option<Progress>, items: seq<QueryProgress>, r: QueryProgress)
    requires Resumable(plan, resume) && |items| < |plan.queries|
    requires Recorded(plan, resume, items)
    requires Good(r) && Grows(Before(plan, resume, |items|), r) && r.queryId == plan.queries[|items|].queryId
    ensures Recorded(plan, resume, items + [r])
  {
    hide Good;
    hide Grows;
  }

  lemma {:induction false} RunRecords(plan: Plan, p: Providers, resume: Option<Progress>, n: nat)
    requires plan.Valid() && Resumable(plan, resume) && n <= |plan.queries|
    ensures Recorded(plan, resume, AskFirst(plan, p, resume, n).items)
    ensures |AskFirst(plan, p, resume, n).items| == n
  {
    hide AskFirst;
    hide Good;
    hide Grows;
    hide Advances;
    hide Accounts;
    hide Traced;
    FirstQuery(plan, p, resume);
    if n > 0 {
      RunRecords(plan, p, resume, n - 1);
      var r := NextQuery(plan, p, resume, n - 1);
      RecordsStep(plan, resume, AskFirst(plan, p, resume, n - 1).items, r);
      hide Recorded;
    } else {
      assert Recorded(plan, resume, AskFirst(plan, p, resume, 0).items);
      assert |AskFirst(plan, p, resume, 0).items| == 0;
    }
    hide Recorded;
  }

  lemma {:induction false} RunAdvances(plan: Plan, p: Providers, resume: Option<Progress>, n: nat)
    requires plan.Valid() && Resumable(plan, resume) && n <= |plan.queries|
    ensures Advances(plan.scope.maxVerifications, Start(plan, resume).shared, AskFirst(plan, p, resume, n).shared)
  {
    hide AskFirst;
    hide Good;
    hide Grows;
    hide Accounts;
    FirstQuery(plan, p, resume);
    if n > 0 {
      RunAdvances(plan, p, resume, n - 1);
      var r := NextQuery(plan, p, resume, n - 1);
      AdvancesTransitive(plan.scope.maxVerifications, Start(plan, resume).shared,
                         AskFirst(plan, p, resume, n - 1).shared, AskFirst(plan, p, resume, n).shared);
      hide Advances;
    }
  }

  // ----- Counters -----------------------------------------------------------------------

  function CountTerminal(items: seq<QueryProgress>): nat {
    if items == [] then 0 else CountTerminal(items[..|items| - 1]) + Count(items[|items| - 1].Terminal())
  }

  function CountMisses(items: seq<QueryProgress>): nat {
    if items == [] then 0 else CountMisses(items[..|items| - 1]) + Count(items[|items| - 1].status.NotFound?)
  }

  lemma {:induction false} CountsAll(items: seq<QueryProgress>)
    ensures CountTerminal(items) <= |items| && CountMisses(items) <= |items|
    ensures CountTerminal(items) == |items| <==> forall r | r in items :: r.Terminal()
    ensures CountMisses(items) == |items| <==> forall r | r in items :: r.status.NotFound?
  {
    if items != [] {
      var rest, last := items[..|items| - 1], items[|items| - 1];
      CountsAll(rest);
      assert items == rest + [last];
    }
  }

  lemma {:induction false} RunCounts(plan: Plan, p: Providers, resume: Option<Progress>, n: nat)
    requires plan.Valid() && Resumable(plan, resume) && n <= |plan.queries|
    ensures var st := AskFirst(plan, p, resume, n);
            && st.completed == CountTerminal(st.items)
            && st.cleanMisses == CountMisses(st.items)
            && ((forall r | r in st.items :: r.Terminal()) ==> st.shared.failures == 0)
  {
    hide AskFirst;
    hide Good;
    hide Grows;
    hide Accounts;
    hide Advances;
    FirstQuery(plan, p, resume);
    if n > 0 {
      RunCounts(plan, p, resume, n - 1);
      var before, st := AskFirst(plan, p, resume, n - 1), AskFirst(plan, p, resume, n);
      var r := NextQuery(plan, p, resume, n - 1);
      assert st.items[..|st.items| - 1] == before.items;
    }
  }

  /** Attempts already recorded for the first n queries of the plan. */
  function BeforeAttempts(plan: Plan, resume: Option<Progress>, n: nat): nat
    requires n <= |plan.queries|
    requires resume.Some? ==> |resume.value.queries| == |plan.queries|
  {
    if n == 0 then 0 else BeforeAttempts(plan, resume, n - 1) + Before(plan, resume, n - 1).attemptCount
  }

  lemma {:induction false} BeforeAttemptsSum(plan: Plan, resume: Option<Progress>, n: nat)
    requires n <= |plan.queries|
    requires resume.Some? ==> |resume.value.queries| == |plan.queries|
    ensures BeforeAttempts(plan, resume, n) == if resume.Some? then SumAttempts(resume.value.queries[..n]) else 0
  {
    if n > 0 {
      BeforeAttemptsSum(plan, resume, n - 1);
      if resume.Some? {
        assert resume.value.queries[..n][..n - 1] == resume.value.queries[..n - 1];
      }
    }
  }

  lemma {:induction false} RunAttempts(plan: Plan, p: Providers, resume: Option<Progress>, n: nat)
    requires plan.Valid() && Resumable(plan, resume) && n <= |plan.queries|
    ensures var st := AskFirst(plan, p, resume, n);
            st.shared.attempts - StartingAttempts(resume) == SumAttempts(st.items) - BeforeAttempts(plan, resume, n)
  {
    hide AskFirst;
    hide Good;
    hide Grows;
    hide Accounts;
    hide Advances;
    FirstQuery(plan, p, resume);
    if n > 0 {
      RunAttempts(plan, p, resume, n - 1);
      var before, st := AskFirst(plan, p, resume, n - 1), AskFirst(plan, p, resume, n);
      var r := NextQuery(plan, p, resume, n - 1);
      assert st.items[..|st.items| - 1] == before.items;
    }
  }

  // ----- Verified sources ---------------------------------------------------------------

  lemma {:induction false} PriorSourcesHave(records: seq<QueryProgress>, i: nat)
    requires i < |records|
    ensures Elems(records[i].sourceIds) <= PriorSources(records)
    ensures Elems(records[i].evidenceIds) <= PriorEvidence(records)
  {
    if i < |records| - 1 {
      PriorSourcesHave(records[..|records| - 1], i);
    }
  }

  lemma {:induction false} PriorSourcesNone(records: seq<QueryProgress>)
    ensures PriorSources(records) == {} <==> forall r | r in records :: r.sourceIds == []
  {
    if records != [] {
      var rest, last := records[..|records| - 1], records[|records| - 1];
      PriorSourcesNone(rest);
      assert records == rest + [last];
      assert last.sourceIds != [] ==> last.sourceIds[0] in Elems(last.sourceIds);
      assert last.sourceIds == [] ==> Elems(last.sourceIds) == {};
    }
  }

  lemma AccountsStep(base: seq<string>, before: set<string>, record: seq<string>, after: set<string>, items: set<string>, prior: set<string>)
    requires Accounts(base, before, record, after)
    requires before + prior == items + prior
    requires Elems(base) <= prior
    ensures after + prior == items + Elems(record) + prior
  {
    hide Elems;
  }

  /** Apart from earlier ids, the ids of the fresh verifications are the ids on the records. */
  ghost predicate SourcesBalance(previous: seq<QueryProgress>, st: RunState) {
    && SourcesOf(st.shared.verifications) + PriorSources(previous) == PriorSources(st.items) + PriorSources(previous)
    && EvidenceOf(st.shared.verifications) + PriorEvidence(previous) == PriorEvidence(st.items) + PriorEvidence(previous)
  }

  lemma SourcesStep(plan: Plan, previous: seq<QueryProgress>, base: QueryProgress, st: RunState, t: RunState, r: QueryProgress)
    requires SourcesBalance(previous, st) && Asked(plan, base, st, t, r)
    requires Elems(base.sourceIds) <= PriorSources(previous) && Elems(base.evidenceIds) <= PriorEvidence(previous)
    ensures SourcesBalance(previous, t)
  {
    hide Good;
    hide Grows;
    hide Advances;
    hide Accounts;
    hide Elems;
    hide SourcesOf;
    hide EvidenceOf;
    assert t.items[..|t.items| - 1] == st.items;
    AccountsStep(base.sourceIds, SourcesOf(st.shared.verifications), r.sourceIds, SourcesOf(t.shared.verifications),
                 PriorSources(st.items), PriorSources(previous));
    AccountsStep(base.evidenceIds, EvidenceOf(st.shared.verifications), r.evidenceIds, EvidenceOf(t.shared.verifications),
                 PriorEvidence(st.items), PriorEvidence(previous));
  }

  lemma StartBalances(plan: Plan, resume: Option<Progress>)
    ensures SourcesBalance(Previous(resume), Start(plan, resume))
  {
    hide Seeds;
    hide StartingAttempts;
    hide Previous;
  }

  lemma {:induction false} RunSources(plan: Plan, p: Providers, resume: Option<Progress>, n: nat)
    requires plan.Valid() && Resumable(plan, resume) && n <= |plan.queries|
    ensures SourcesBalance(Previous(resume), AskFirst(plan, p, resume, n))
  {
    hide AskFirst;
    hide Good;
    hide Asked;
    hide SourcesBalance;
    FirstQuery(plan, p, resume);
    if n == 0 {
      StartBalances(plan, resume);
    } else {
      RunSources(plan, p, resume, n - 1);
      var base := Before(plan, resume, n - 1);
      var r := NextQuery(plan, p, resume, n - 1);
      PreviousIs(plan, resume);
      if resume.Some? {
        PriorSourcesHave(Previous(resume), n - 1);
      }
      hide Previous;
      SourcesStep(plan, Previous(resume), base, AskFirst(plan, p, resume, n - 1), AskFirst(plan, p, resume, n), r);
    }
  }

  // ----- Traces -------------------------------------------------------------------------

  /** Some record counts a candidate. */
  ghost predicate Touched(items: seq<QueryProgress>) {
    exists i :: 0 <= i < |items| && items[i].candidateCount > 0
  }

  ghost predicate SomeOpen(items: seq<QueryProgress>) {
    exists i :: 0 <= i < |items| && Open(items[i])
  }

  ghost predicate NothingVerified(items: seq<QueryProgress>) {
    forall i | 0 <= i < |items| :: items[i].sourceIds == []
  }

  lemma AppendTouched(items: seq<QueryProgress>, r: QueryProgress)
    ensures Touched(items + [r]) <==> Touched(items) || r.candidateCount > 0
    ensures SomeOpen(items + [r]) <==> SomeOpen(items) || Open(r)
    ensures NothingVerified(items + [r]) <==> NothingVerified(items) && r.sourceIds == []
  {
    var all := items + [r];
    assert all[|items|] == r;
    forall i | 0 <= i < |items|
      ensures all[i] == items[i]
    {
    }
  }

  /** A provider that found, verified or exhausted anything leaves a counted candidate behind,
      and a newly counted candidate was returned by a search. */
  ghost predicate TracesKept(plan: Plan, resume: Option<Progress>, st: RunState)
    requires resume.Some? ==> |resume.value.queries| == |plan.queries|
  {
    && |st.items| <= |plan.queries|
    && (st.shared.calls != [] ==> Touched(st.items))
    && (st.shared.exhausted ==> Start(plan, resume).shared.exhausted || Touched(st.items))
    && (forall s | s in st.searches && ReturnsCandidates(s.outcome) :: Touched(st.items))
    && (forall i | 0 <= i < |st.items| && st.items[i].candidateCount > 0 && Before(plan, resume, i).candidateCount == 0 ::
          exists s :: s in st.searches && ReturnsCandidates(s.outcome))
  }

  lemma TracesStep(plan: Plan, resume: Option<Progress>, st: RunState, t: RunState, r: QueryProgress)
    requires resume.Some? ==> |resume.value.queries| == |plan.queries|
    requires |st.items| < |plan.queries| && t.items == st.items + [r]
    requires TracesKept(plan, resume, st)
    requires Traced(Before(plan, resume, |st.items|), st, t, r)
    ensures TracesKept(plan, resume, t)
  {
    hide Open;
    hide ReturnsCandidates;
    hide Start;
    AppendTouched(st.items, r);
    hide Touched;
  }

  lemma {:induction false} RunTraces(plan: Plan, p: Providers, resume: Option<Progress>, n: nat)
    requires plan.Valid() && Resumable(plan, resume) && n <= |plan.queries|
    ensures |AskFirst(plan, p, resume, n).items| == n
    ensures TracesKept(plan, resume, AskFirst(plan, p, resume, n))
  {
    hide AskFirst;
    hide Good;
    hide Grows;
    hide Accounts;
    hide Advances;
    hide Traced;
    FirstQuery(plan, p, resume);
    if n > 0 {
      RunTraces(plan, p, resume, n - 1);
      var r := NextQuery(plan, p, resume, n - 1);
      TracesStep(plan, resume, AskFirst(plan, p, resume, n - 1), AskFirst(plan, p, resume, n), r);
      hide TracesKept;
    } else {
      assert TracesKept(plan, resume, AskFirst(plan, p, resume, 0));
    }
    hide TracesKept;
  }

  /** While nothing is verified, either a query stays open or no new candidate has appeared. */
  ghost predicate OpenOrUntouched(plan: Plan, resume: Option<Progress>, st: RunState)
    requires |st.items| <= |plan.queries|
    requires resume.Some? ==> |resume.value.queries| == |plan.queries|
  {
    NothingVerified(st.items) ==>
      || SomeOpen(st.items)
      || (&& st.shared.seen == {}
          && forall i | 0 <= i < |st.items| && st.items[i].candidateCount > 0 :: Before(plan, resume, i).candidateCount > 0)
  }

  lemma OpensStep(plan: Plan, resume: Option<Progress>, st: RunState, t: RunState, r: QueryProgress)
    requires |st.items| < |plan.queries|
    requires resume.Some? ==> |resume.value.queries| == |plan.queries|
    requires t.items == st.items + [r]
    requires OpenOrUntouched(plan, resume, st)
    requires Traced(Before(plan, resume, |st.items|), st, t, r)
    ensures OpenOrUntouched(plan, resume, t)
  {
    hide Open;
    AppendTouched(st.items, r);
    hide SomeOpen;
    hide NothingVerified;
  }

  lemma {:induction false} RunOpens(plan: Plan, p: Providers, resume: Option<Progress>, n: nat)
    requires plan.Valid() && Resumable(plan, resume) && n <= |plan.queries|
    requires Seeds(Previous(resume)) == {}
    ensures |AskFirst(plan, p, resume, n).items| == n
    ensures OpenOrUntouched(plan, resume, AskFirst(plan, p, resume, n))
  {
    hide AskFirst;
    hide Good;
    hide Grows;
    hide Accounts;
    hide Advances;
    hide Traced;
    FirstQuery(plan, p, resume);
    if n > 0 {
      RunOpens(plan, p, resume, n - 1);
      var r := NextQuery(plan, p, resume, n - 1);
      OpensStep(plan, resume, AskFirst(plan, p, resume, n - 1), AskFirst(plan, p, resume, n), r);
      hide OpenOrUntouched;
    }
  }

  /** A query left open by earlier runs is open after this one, unless something was verified for it. */
  lemma {:induction false} RunKeepsOpen(plan: Plan, p: Providers, resume: Option<Progress>, n: nat, i: nat)
    requires plan.Valid() && Resumable(plan, resume) && i < n <= |plan.queries|
    requires Open(Before(plan, resume, i))
    ensures |AskFirst(plan, p, resume, n).items| == n
    ensures AskFirst(plan, p, resume, n).items[i].sourceIds == [] ==> Open(AskFirst(plan, p, resume, n).items[i])
  {
    hide AskFirst;
    hide Good;
    hide Grows;
    hide Accounts;
    hide Advances;
    hide Open;
    RunRecords(plan, p, resume, n - 1);
    var r := NextQuery(plan, p, resume, n - 1);
    if i < n - 1 {
      RunKeepsOpen(plan, p, resume, n - 1, i);
    }
  }

  // ----- The cursor ---------------------------------------------------------------------

  /** The cursor stands on the first open query, or behind the last one. */
  ghost predicate CursorAt(items: seq<QueryProgress>, ordinal: nat) {
    && 1 <= ordinal <= |items| + 1
    && (forall i | 0 <= i < ordinal - 1 :: items[i].Terminal())
    && (ordinal <= |items| ==> !items[ordinal - 1].Terminal())
  }

  lemma {:induction false} CursorFrom(plan: Plan, items: seq<QueryProgress>, k: nat)
    requires plan.Valid() && Ordered(plan, items) && k <= |plan.queries|
    requires forall i | 0 <= i < k :: items[i].Terminal()
    ensures CursorAt(items, NextOrdinal(plan.queries[k..], |plan.queries|, items))
    decreases |plan.queries| - k
  {
    if k < |plan.queries| {
      FindDistinct(items, k);
      assert plan.queries[k..][0] == plan.queries[k];
      assert plan.queries[k..][1..] == plan.queries[k + 1..];
      if items[k].Terminal() {
        CursorFrom(plan, items, k + 1);
      }
    }
  }

  // ----- The result ---------------------------------------------------------------------

  lemma {:induction false} PriorSourcesGrow(a: seq<QueryProgress>, b: seq<QueryProgress>)
    requires |a| == |b| && forall i | 0 <= i < |a| :: Grows(a[i], b[i])
    ensures PriorSources(a) <= PriorSources(b) && PriorEvidence(a) <= PriorEvidence(b)
  {
    if a != [] {
      PriorSourcesGrow(a[..|a| - 1], b[..|b| - 1]);
      assert Grows(a[|a| - 1], b[|b| - 1]);
    }
  }

  /** The records of a finished run. */
  lemma ResultRecords(plan: Plan, p: Providers, resume: Option<Progress>)
    requires plan.Valid() && Resumable(plan, resume)
    ensures var progress := Execute(plan, p, resume).result.progress;
            && Ordered(plan, progress.queries)
            && Recorded(plan, resume, progress.queries)
            && progress.planId == plan.planId && progress.totalQueries == |plan.queries|
            && CursorAt(progress.queries, progress.nextOrdinal)
            && (progress.Complete() <==> forall r | r in progress.queries :: r.Terminal())
  {
    hide Good;
    hide Grows;
    RunRecords(plan, p, resume, |plan.queries|);
    var items := AskFirst(plan, p, resume, |plan.queries|).items;
    hide AskFirst;
    assert Ordered(plan, items);
    assert plan.queries[0..] == plan.queries;
    CursorFrom(plan, items, 0);
  }

  /** The attempts a finished run reports, in terms of its calls and its records. */
  lemma ResultAttempts(plan: Plan, p: Providers, resume: Option<Progress>)
    requires plan.Valid() && Resumable(plan, resume)
    ensures var run := Execute(plan, p, resume);
            && run.result.attempts == run.result.progress.attempts == StartingAttempts(resume) + Charged(run.calls)
            && (Charged(run.calls) == 0 || run.result.attempts <= plan.scope.maxVerifications)
            && SumAttempts(run.result.progress.queries)
               == (if resume.Some? then SumAttempts(resume.value.queries) else 0) + Charged(run.calls)
  {
    var n := |plan.queries|;
    RunAdvances(plan, p, resume, n);
    RunAttempts(plan, p, resume, n);
    BeforeAttemptsSum(plan, resume, n);
    if resume.Some? {
      assert resume.value.queries[..n] == resume.value.queries;
    }
    hide AskFirst;
    hide Good;
    hide Grows;
    hide Decide;
    hide FinalReasons;
    hide NextOrdinal;
  }

  lemma Absorbed<T>(a: set<T>, b: set<T>, c: set<T>)
    requires a + b == c + b && b <= c
    ensures b + a == c
  {
  }

  /** The ids a finished run reports are exactly those on its records. */
  lemma ResultSources(plan: Plan, p: Providers, resume: Option<Progress>)
    requires plan.Valid() && Resumable(plan, resume)
    ensures var result := Execute(plan, p, resume).result;
            && result.verifiedSourceIds == PriorSources(result.progress.queries)
            && result.verifiedEvidenceIds == PriorEvidence(result.progress.queries)
  {
    hide Good;
    hide Grows;
    hide Decide;
    hide FinalReasons;
    hide NextOrdinal;
    var n, previous := |plan.queries|, Previous(resume);
    var st := AskFirst(plan, p, resume, n);
    hide AskFirst;
    hide Elems;
    RunSources(plan, p, resume, n);
    assert PriorSources(previous) <= PriorSources(st.items) && PriorEvidence(previous) <= PriorEvidence(st.items) by {
      PreviousIs(plan, resume);
      RunRecords(plan, p, resume, n);
      if resume.Some? {
        PriorSourcesGrow(resume.value.queries, st.items);
      }
    }
    Absorbed(SourcesOf(st.shared.verifications), PriorSources(previous), PriorSources(st.items));
    Absorbed(EvidenceOf(st.shared.verifications), PriorEvidence(previous), PriorEvidence(st.items));
    hide SourcesOf;
    hide EvidenceOf;
    hide PriorSources;
    hide PriorEvidence;
  }

  /** When a run allows the scoped absence claim. */
  lemma ResultAbsence(plan: Plan, p: Providers, resume: Option<Progress>)
    requires plan.Valid() && Resumable(plan, resume)
    ensures var result := Execute(plan, p, resume).result;
            result.absenceClaimAllowed <==>
              && (forall r | r in result.progress.queries :: r.status.NotFound?)
              && result.verifiedSourceIds == {}
              && !result.budgetExhausted
  {
    var n := |plan.queries|;
    RunCounts(plan, p, resume, n);
    RunRecords(plan, p, resume, n);
    var items := AskFirst(plan, p, resume, n).items;
    CountsAll(items);
    hide AskFirst;
    hide Good;
    hide Grows;
    hide FinalReasons;
  }

  /** The keys a run verifies are pairwise distinct and were not seeded by earlier records. */
  lemma ResultKeys(plan: Plan, p: Providers, resume: Option<Progress>)
    requires plan.Valid() && Resumable(plan, resume)
    ensures var calls := Execute(plan, p, resume).calls;
            && (forall i, j | 0 <= i < j < |calls| :: calls[i].key != calls[j].key)
            && (forall i | 0 <= i < |calls| :: calls[i].key !in Seeds(Previous(resume)))
  {
    RunAdvances(plan, p, resume, |plan.queries|);
    hide AskFirst;
    hide Finish;
    hide Good;
  }

  /** What the searches and verifications of a run leave on its records. */
  lemma ResultTraces(plan: Plan, p: Providers, resume: Option<Progress>)
    requires plan.Valid() && Resumable(plan, resume)
    ensures var run := Execute(plan, p, resume);
            var items := run.result.progress.queries;
            && (run.calls != [] ==> Touched(items))
            && (forall s | s in run.searches && ReturnsCandidates(s.outcome) :: Touched(items))
            && (Touched(items) && (resume.None? || !Touched(resume.value.queries)) ==>
                  exists s :: s in run.searches && ReturnsCandidates(s.outcome))
  {
    hide Good;
    hide ReturnsCandidates;
    hide Decide;
    hide FinalReasons;
    RunTraces(plan, p, resume, |plan.queries|);
    var items := AskFirst(plan, p, resume, |plan.queries|).items;
    hide AskFirst;
    if Touched(items) && (resume.None? || !Touched(resume.value.queries)) {
      var i :| 0 <= i < |items| && items[i].candidateCount > 0;
      assert Before(plan, resume, i).candidateCount == 0;
    }
  }

  lemma {:induction false} SeedsHave(records: seq<QueryProgress>, i: nat)
    requires i < |records|
    ensures SeedOf(records[i]) <= Seeds(records)
  {
    if i < |records| - 1 {
      SeedsHave(records[..|records| - 1], i);
    }
  }

  lemma {:induction false} SeedsNone(records: seq<QueryProgress>)
    requires forall r | r in records :: Good(r) && r.sourceIds == []
    ensures Seeds(records) == {}
  {
    if records != [] {
      SeedsNone(records[..|records| - 1]);
      var last := records[|records| - 1];
      EmptyElems(last.verifiedIds);
      EmptyElems(last.verifiedKeys);
      hide Elems;
    }
  }

  lemma NoIdsBefore(a: QueryProgress, b: QueryProgress)
    requires Grows(a, b) && b.sourceIds == []
    ensures a.sourceIds == []
  {
    EmptyElems(a.sourceIds);
    EmptyElems(b.sourceIds);
    hide Elems;
  }

  /** Records that end without a verified id began without one, and then nothing is seeded. */
  lemma UnverifiedBefore(plan: Plan, p: Providers, resume: Option<Progress>)
    requires plan.Valid() && Resumable(plan, resume)
    requires NothingVerified(AskFirst(plan, p, resume, |plan.queries|).items)
    ensures forall i | 0 <= i < |plan.queries| :: Before(plan, resume, i).sourceIds == []
    ensures Seeds(Previous(resume)) == {}
  {
    RunRecords(plan, p, resume, |plan.queries|);
    var items := AskFirst(plan, p, resume, |plan.queries|).items;
    hide AskFirst;
    hide Good;
    hide Grows;
    hide Seeds;
    hide Previous;
    forall i | 0 <= i < |plan.queries|
      ensures Before(plan, resume, i).sourceIds == []
    {
      NoIdsBefore(Before(plan, resume, i), items[i]);
    }
    UnverifiedSeedsNone(plan, resume);
  }

  lemma UnverifiedSeedsNone(plan: Plan, resume: Option<Progress>)
    requires plan.Valid() && Resumable(plan, resume)
    requires forall i | 0 <= i < |plan.queries| :: Before(plan, resume, i).sourceIds == []
    ensures Seeds(Previous(resume)) == {}
  {
    PreviousIs(plan, resume);
    hide Good;
    forall r | r in Previous(resume)
      ensures r.sourceIds == []
    {
      var i :| 0 <= i < |Previous(resume)| && Previous(resume)[i] == r;
      assert Before(plan, resume, i) == r;
    }
    SeedsNone(Previous(resume));
  }

  /** If earlier records with a counted candidate keep a query open, so do the new ones. */
  lemma ResultOpen(plan: Plan, p: Providers, resume: Option<Progress>)
    requires plan.Valid() && Resumable(plan, resume)
    requires resume.Some? && NothingVerified(resume.value.queries) && Touched(resume.value.queries) ==>
               SomeOpen(resume.value.queries)
    ensures var items := Execute(plan, p, resume).result.progress.queries;
            NothingVerified(items) && Touched(items) ==> SomeOpen(items)
  {
    hide Decide;
    hide FinalReasons;
    hide NextOrdinal;
    hide Good;
    hide AskQuery;
    hide Open;
    var n := |plan.queries|;
    var st := AskFirst(plan, p, resume, n);
    hide AskFirst;
    if NothingVerified(st.items) && Touched(st.items) && !SomeOpen(st.items) {
      UnverifiedBefore(plan, p, resume);
      RunOpens(plan, p, resume, n);
      var i :| 0 <= i < |st.items| && st.items[i].candidateCount > 0;
      assert Before(plan, resume, i).candidateCount > 0;
      assert resume.Some? && resume.value.queries[i] == Before(plan, resume, i);
      assert Touched(resume.value.queries);
      assert NothingVerified(resume.value.queries) by {
        forall j | 0 <= j < |resume.value.queries|
          ensures resume.value.queries[j].sourceIds == []
        {
          assert Before(plan, resume, j).sourceIds == [];
        }
      }
      var k :| 0 <= k < |resume.value.queries| && Open(resume.value.queries[k]);
      assert Open(Before(plan, resume, k));
      RunKeepsOpen(plan, p, resume, n, k);
    }
  }

  lemma {:induction false} NothingSummed(records: seq<QueryProgress>)
    requires forall r | r in records :: Good(r) && r.candidateCount == 0
    ensures SumAttempts(records) == 0 && LegacyAttempts(records) == 0 && PriorSources(records) == {}
  {
    hide Elems;
    if records != [] {
      NothingSummed(records[..|records| - 1]);
      var last := records[|records| - 1];
      EmptyElems(last.candidateIds);
      EmptyElems(last.verifiedIds);
      EmptyElems(last.sourceIds);
    }
  }

  lemma UntouchedRecords(records: seq<QueryProgress>)
    requires !Touched(records) && forall r | r in records :: Good(r)
    ensures SumAttempts(records) == 0 && LegacyAttempts(records) == 0 && PriorSources(records) == {}
  {
    hide Good;
    forall r | r in records
      ensures r.candidateCount == 0
    {
      var i :| 0 <= i < |records| && records[i] == r;
    }
    NothingSummed(records);
  }

  lemma UntouchedStart(plan: Plan, resume: Option<Progress>)
    requires plan.Valid() && Resumable(plan, resume)
    requires resume.Some? ==> resume.value.attempts == 0 && !Touched(resume.value.queries)
    ensures StartingAttempts(resume) == 0 && !Start(plan, resume).shared.exhausted
  {
    PreviousIs(plan, resume);
    hide Good;
    if resume.Some? {
      UntouchedRecords(resume.value.queries);
    }
  }

  /** A run whose records count no candidate has called nothing and verified nothing. */
  lemma ResultUntouched(plan: Plan, p: Providers, resume: Option<Progress>)
    requires plan.Valid() && Resumable(plan, resume)
    requires !Touched(Execute(plan, p, resume).result.progress.queries)
    requires resume.Some? ==> resume.value.attempts == 0 && !Touched(resume.value.queries)
    ensures var run := Execute(plan, p, resume);
            && run.calls == [] && run.result.attempts == run.result.progress.attempts == 0
            && !run.result.budgetExhausted && run.result.verifiedSourceIds == {}
  {
    hide Decide;
    hide FinalReasons;
    hide NextOrdinal;
    hide Good;
    hide Touched;
    hide StartingAttempts;
    UntouchedStart(plan, resume);
    hide Start;
    RunTraces(plan, p, resume, |plan.queries|);
    RunRecords(plan, p, resume, |plan.queries|);
    ResultAttempts(plan, p, resume);
    ResultSources(plan, p, resume);
    var items := AskFirst(plan, p, resume, |plan.queries|).items;
    hide AskFirst;
    hide Grows;
    UntouchedRecords(items);
  }
}
