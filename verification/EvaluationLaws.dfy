/** What the report counts and averages, in terms of the imported runs and reviews themselves. */
module EvaluationLaws {
  import opened Collections
  import opened Evaluation
  import opened EvaluationPairing
  import opened EvaluationReport

  // ----- Reviews ------------------------------------------------------------------------

  ghost predicate HasText(s: Option<string>) {
    s.Some? && exists c | c in s.value :: c as int !in SPACES
  }

  /** The review was imported from outside and confirmed, and names its source and its reviewer. */
  ghost predicate Usable(v: Review) {
    && v.provenance.externalImport && v.provenance.confirmed
    && HasText(v.provenance.sourceRef) && HasText(v.provenance.reviewer)
  }

  ghost function CountOf(n: Option<nat>): Option<real> {
    if n == None then None else Some(n.value as real)
  }

  /** What a review says of a metric. */
  ghost function Says(v: Review, metric: Metric): Option<real> {
    if metric == CitationErrors then CountOf(v.citationErrors)
    else if metric == MaterialOmissions then CountOf(v.materialOmissions)
    else if metric == FalseAccepts then CountOf(v.falseAccepts)
    else if metric == FalseRefusals then CountOf(v.falseRefusals)
    else v.reviewTime
  }

  lemma UsableIsAccepted(v: Review)
    ensures Usable(v) <==> v.provenance.Accepted()
  {
    if v.provenance.sourceRef.Some? {
      BlankMeans(v.provenance.sourceRef.value);
    }
    if v.provenance.reviewer.Some? {
      BlankMeans(v.provenance.reviewer.value);
    }
    hide Blank;
  }

  lemma {:induction false} ReviewMapHas(reviews: seq<Review>)
    requires Distinct(ReviewedIds(reviews))
    ensures forall v | v in reviews :: v.runId in ReviewMap(reviews) && ReviewMap(reviews)[v.runId] == v
  {
    if reviews != [] {
      var rest, last := reviews[..|reviews| - 1], reviews[|reviews| - 1];
      assert reviews == rest + [last];
      assert ReviewedIds(reviews) == ReviewedIds(rest) + [last.runId];
      DistinctAppend(ReviewedIds(rest), last.runId);
      ReviewMapHas(rest);
      forall v | v in rest
        ensures v.runId != last.runId
      {
        var i :| 0 <= i < |rest| && rest[i] == v;
        assert ReviewedIds(rest)[i] == v.runId;
      }
    }
  }

  /** The score an accepted review gives a run. */
  ghost predicate Gives(reviews: seq<Review>, runId: string, metric: Metric, x: real) {
    exists v | v in reviews :: v.runId == runId && Usable(v) && Says(v, metric) == Some(x)
  }

  /** With one review to a run, a run's score is what its usable review says. */
  lemma ScoreIsGiven(reviews: seq<Review>, runId: string, metric: Metric)
    requires Distinct(ReviewedIds(reviews))
    ensures runId in ReviewMap(reviews) <==> exists v :: v in reviews && v.runId == runId
    ensures Reviewed(ReviewMap(reviews), runId) <==> exists v :: v in reviews && v.runId == runId && Usable(v)
    ensures forall x :: ScoreOf(ReviewMap(reviews), runId, metric) == Some(x) <==> Gives(reviews, runId, metric, x)
  {
    ReviewMapHas(reviews);
    ReviewMapIs(reviews);
    hide ReviewMap;
    hide ReviewedIds;
    hide Distinct;
    forall v | v in reviews
      ensures Usable(v) <==> v.provenance.Accepted()
      ensures Says(v, metric) == v.Value(metric)
    {
      UsableIsAccepted(v);
    }
    hide Usable;
    hide Says;
  }

  // ----- Aggregates ---------------------------------------------------------------------

  ghost predicate HasReview(reviews: seq<Review>, runId: string) {
    exists v | v in reviews :: v.runId == runId
  }

  ghost predicate HasUsable(reviews: seq<Review>, runId: string) {
    exists v | v in reviews :: v.runId == runId && Usable(v)
  }

  /** The counts and the sum of an aggregate, from which the rest follows. */
  datatype Totals = Totals(runs: int, reviewed: int, unreviewed: int, scored: int, sum: real, nonzero: int)

  ghost function TotalsOf(a: Aggregate): Totals {
    Totals(a.runPresent, a.reviewPresent, a.unreviewed, a.scorable, if a.valueSum.Some? then a.valueSum.value else 0.0,
           if a.nonzeroCount.Some? then a.nonzeroCount.value else 0)
  }

  /** No run, nothing to report: an absent score is missing, not zero. */
  lemma AggregateOfNone(a: Aggregate, metric: Metric, taskCount: nat, reviews: seq<Review>)
    requires Aggregates(a, metric, taskCount, [], ReviewMap(reviews))
    ensures TotalsOf(a) == Totals(0, 0, 0, 0, 0.0, 0)
    ensures a.denominator == taskCount && a.valueSum == None && a.mean == None && a.nonzeroRate == None
    ensures a.nonzeroCount == if metric == ReviewTimeSeconds then None else Some(0)
  {
  }

  /** One more run adds one to the runs; to the reviewed runs if it has a review, and to the unreviewed
      ones if that cannot be used; and if it gives a score, that score to the sum, one to the scored
      runs, and one to the nonzero ones when it counts something and is above zero. */
  lemma OneMoreRun(metric: Metric, taskCount: nat, runs: seq<EvalRun>, run: EvalRun, reviews: seq<Review>, a: Aggregate, b: Aggregate)
    requires Distinct(ReviewedIds(reviews))
    requires Aggregates(a, metric, taskCount, runs, ReviewMap(reviews))
    requires Aggregates(b, metric, taskCount, runs + [run], ReviewMap(reviews))
    ensures var x, y := TotalsOf(a), TotalsOf(b);
            && y.runs == x.runs + 1
            && y.reviewed == x.reviewed + (if HasReview(reviews, run.runId) then 1 else 0)
            && y.unreviewed == x.unreviewed + (if HasReview(reviews, run.runId) && !HasUsable(reviews, run.runId) then 1 else 0)
    ensures forall score :: Gives(reviews, run.runId, metric, score) ==>
              && TotalsOf(b).scored == TotalsOf(a).scored + 1 && TotalsOf(b).sum == TotalsOf(a).sum + score && b.valueSum.Some?
              && TotalsOf(b).nonzero == TotalsOf(a).nonzero + (if metric != ReviewTimeSeconds && score > 0.0 then 1 else 0)
    ensures (forall score :: !Gives(reviews, run.runId, metric, score)) ==>
              TotalsOf(b).scored == TotalsOf(a).scored && TotalsOf(b).sum == TotalsOf(a).sum && TotalsOf(b).nonzero == TotalsOf(a).nonzero
  {
    var m := ReviewMap(reviews);
    ScoreIsGiven(reviews, run.runId, metric);
    assert (runs + [run])[..|runs|] == runs;
    var before, after := Scores(runs, m, metric), Scores(runs + [run], m, metric);
    var score := ScoreOf(m, run.runId, metric);
    if score.Some? {
      assert after == before + [score.value] && after[..|before|] == before;
      assert Gives(reviews, run.runId, metric, score.value);
    } else {
      assert after == before;
    }
    hide Gives;
    hide ScoreOf;
    hide ReviewMap;
    hide Reviewed;
    hide Rated;
    hide Mean;
    hide Distinct;
  }

  // ----- Comparisons --------------------------------------------------------------------

  ghost predicate BothScored(reviews: seq<Review>, pair: RunPair, metric: Metric, x: real, y: real) {
    Gives(reviews, pair.withRunId, metric, x) && Gives(reviews, pair.withoutRunId, metric, y)
  }

  lemma PairScoresSum(pairs: seq<RunPair>, pair: RunPair, reviews: seq<Review>, metric: Metric, mode: HarnessMode)
    requires Distinct(ReviewedIds(reviews))
    ensures var before, after := PairScores(pairs, ReviewMap(reviews), metric, mode), PairScores(pairs + [pair], ReviewMap(reviews), metric, mode);
            && (forall x, y :: BothScored(reviews, pair, metric, x, y) ==> after == before + [if mode == WithHarness then x else y])
            && ((forall x, y :: !BothScored(reviews, pair, metric, x, y)) ==> after == before)
  {
    var m := ReviewMap(reviews);
    assert (pairs + [pair])[..|pairs|] == pairs;
    ScoreIsGiven(reviews, pair.withRunId, metric);
    ScoreIsGiven(reviews, pair.withoutRunId, metric);
    hide Gives;
    hide ScoreOf;
    hide ReviewMap;
    hide Reviewed;
    hide Distinct;
    if ScoreOf(m, pair.withRunId, metric).Some? && ScoreOf(m, pair.withoutRunId, metric).Some? {
      assert BothScored(reviews, pair, metric, ScoreOf(m, pair.withRunId, metric).value, ScoreOf(m, pair.withoutRunId, metric).value);
    }
  }

  /** The sum behind a mean over so many scores. */
  ghost function Behind(mean: Option<real>, count: int): real {
    if mean.Some? then mean.value * count as real else 0.0
  }

  lemma MeanGrows(values: seq<real>, x: real)
    ensures Behind(Mean(values + [x]), |values| + 1) == Behind(Mean(values), |values|) + x
    ensures Mean(values + [x]).Some?
  {
    assert (values + [x])[..|values|] == values;
  }

  ghost predicate Compares(c: Comparison, metric: Metric, pairs: seq<RunPair>, reviews: seq<Review>) {
    c == Compare(metric, |pairs|, PairScores(pairs, ReviewMap(reviews), metric, WithHarness),
                 PairScores(pairs, ReviewMap(reviews), metric, WithoutHarness))
  }

  /** The rest of a comparison follows from its two means: the pairs left out are missing, and the
      difference is what was scored without the harness less what was scored with it. */
  lemma ComparisonRated(c: Comparison, metric: Metric, pairs: seq<RunPair>, reviews: seq<Review>)
    requires Compares(c, metric, pairs, reviews)
    ensures c.metric == metric && c.denominator == |pairs| && c.missing == |pairs| - c.comparable
    ensures (c.coverage.Some? <==> pairs != []) && (c.coverage.Some? ==> c.coverage.value * |pairs| as real == c.comparable as real)
    ensures (c.withMean.Some? <==> c.comparable != 0) && (c.withoutMean.Some? <==> c.withMean.Some?) && (c.delta.Some? <==> c.withMean.Some?)
    ensures c.delta.Some? ==> c.delta.value == c.withoutMean.value - c.withMean.value
    ensures pairs == [] ==> c.comparable == 0
  {
    PairScoresAlike(pairs, ReviewMap(reviews), metric);
    hide PairScores;
    hide Sum;
    hide ReviewMap;
  }

  lemma {:induction false} PairScoresAlike(pairs: seq<RunPair>, reviews: map<string, Review>, metric: Metric)
    ensures |PairScores(pairs, reviews, metric, WithHarness)| == |PairScores(pairs, reviews, metric, WithoutHarness)| <= |pairs|
  {
    hide ScoreOf;
    if pairs != [] {
      PairScoresAlike(pairs[..|pairs| - 1], reviews, metric);
    }
  }

  /** One more pair counts, and adds its two scores to what the means stand for, exactly when a usable
      review gives each of its runs a score. */
  lemma OneMorePair(metric: Metric, pairs: seq<RunPair>, pair: RunPair, reviews: seq<Review>, c: Comparison, e: Comparison)
    requires Distinct(ReviewedIds(reviews))
    requires Compares(c, metric, pairs, reviews) && Compares(e, metric, pairs + [pair], reviews)
    ensures forall x, y :: BothScored(reviews, pair, metric, x, y) ==>
              && e.comparable == c.comparable + 1
              && Behind(e.withMean, e.comparable) == Behind(c.withMean, c.comparable) + x
              && Behind(e.withoutMean, e.comparable) == Behind(c.withoutMean, c.comparable) + y
    ensures (forall x, y :: !BothScored(reviews, pair, metric, x, y)) ==>
              e.comparable == c.comparable && e.withMean == c.withMean && e.withoutMean == c.withoutMean
  {
    var m := ReviewMap(reviews);
    var w, o := PairScores(pairs, m, metric, WithHarness), PairScores(pairs, m, metric, WithoutHarness);
    PairScoresAlike(pairs, m, metric);
    PairScoresSum(pairs, pair, reviews, metric, WithHarness);
    PairScoresSum(pairs, pair, reviews, metric, WithoutHarness);
    hide PairScores;
    hide BothScored;
    hide ReviewMap;
    hide Mean;
    forall x, y | BothScored(reviews, pair, metric, x, y)
      ensures && e.comparable == c.comparable + 1
              && Behind(e.withMean, e.comparable) == Behind(c.withMean, c.comparable) + x
              && Behind(e.withoutMean, e.comparable) == Behind(c.withoutMean, c.comparable) + y
    {
      MeanGrows(w, x);
      MeanGrows(o, y);
    }
  }

  // ----- What the validators ask ----------------------------------------------------------

  ghost predicate InUnit(x: Option<real>) {
    x.Some? ==> 0.0 <= x.value <= 1.0
  }

  ghost predicate NotNegative(x: Option<real>) {
    x.Some? ==> x.value >= 0.0
  }

  /** An aggregate is valid exactly when its counts nest: the scored and the unreviewed runs among the
      reviewed ones, those among the runs, those among the tasks; what is missing is the rest, and sums
      and rates are in range. */
  lemma AggregateCountsNest(a: Aggregate)
    ensures a.Valid() <==>
              && 0 <= a.scorable && 0 <= a.unreviewed && a.scorable + a.unreviewed <= a.reviewPresent <= a.runPresent <= a.denominator
              && a.reviewMissing == a.runPresent - a.reviewPresent && a.metricMissing == a.reviewPresent - a.unreviewed - a.scorable
              && InUnit(a.coverage) && (a.coverage.Some? ==> a.denominator > 0)
              && NotNegative(a.valueSum) && NotNegative(a.mean) && InUnit(a.nonzeroRate)
  {
  }

  lemma ComparisonCountsNest(c: Comparison)
    ensures c.Valid() <==>
              && 0 <= c.comparable <= c.denominator && c.missing == c.denominator - c.comparable
              && InUnit(c.coverage) && (c.coverage.Some? ==> c.denominator > 0)
              && NotNegative(c.withMean) && NotNegative(c.withoutMean)
  {
  }

  /** A report is valid exactly when there are two runs to expect of each of its tasks, the completed and
      failed runs make up the runs, no more are paired than there are tasks, and nothing is negative. */
  lemma ReportCountsNest(r: Report)
    ensures r.Valid() <==>
              && 1 <= r.taskCount && r.expectedRuns == 2 * r.taskCount
              && 0 <= r.runCount <= r.expectedRuns && r.missingRuns == r.expectedRuns - r.runCount
              && 0 <= r.failedRuns <= r.runCount && r.completedRuns == r.runCount - r.failedRuns
              && 0 <= r.pairedTasks <= r.taskCount && 0 <= r.unpairedRuns && InUnit(r.pairCoverage)
  {
  }

  /** A review is valid exactly unless it took negative time. */
  lemma ReviewTimes(v: Review)
    ensures v.Valid() <==> NotNegative(v.reviewTime)
  {
  }

  /** There is one aggregate for each of the five metrics, in this order, and one comparison. */
  lemma EveryMetricOnce(aggregates: seq<Aggregate>, comparisons: seq<Comparison>, m: Manifest, runs: seq<EvalRun>, pairs: seq<RunPair>,
                        reviews: map<string, Review>, mode: HarnessMode)
    requires MetricsOf(aggregates, m, runs, reviews, mode) && ComparisonsOf(comparisons, pairs, reviews)
    ensures |aggregates| == |comparisons| == 5
    ensures aggregates[0].metric == comparisons[0].metric == CitationErrors
    ensures aggregates[1].metric == comparisons[1].metric == MaterialOmissions
    ensures aggregates[2].metric == comparisons[2].metric == FalseAccepts
    ensures aggregates[3].metric == comparisons[3].metric == FalseRefusals
    ensures aggregates[4].metric == comparisons[4].metric == ReviewTimeSeconds
  {
    hide OfMode;
    hide PairScores;
    hide Scores;
    hide CountPresent;
    hide CountUnreviewed;
    hide CountPositive;
    hide Sum;
    assert forall k | 0 <= k < 5 :: aggregates[k].metric == METRICS[k] && comparisons[k].metric == METRICS[k];
  }

  // ----- The report ---------------------------------------------------------------------

  /** The runs of one mode are those runs, each as often as it was imported. */
  lemma {:induction false} OfModeKeeps(runs: seq<EvalRun>, mode: HarnessMode)
    ensures forall r :: multiset(OfMode(runs, mode))[r] == if r.mode == mode then multiset(runs)[r] else 0
  {
    if runs != [] {
      var rest, last := runs[..|runs| - 1], runs[|runs| - 1];
      OfModeKeeps(rest, mode);
      assert runs == rest + [last];
    }
  }

  /** The failed runs are those that were not completed. */
  lemma {:induction false} FailedAre(runs: seq<EvalRun>)
    ensures CountFailed(runs) == |set i | 0 <= i < |runs| && runs[i].status != RunCompleted|
  {
    var failed := set i | 0 <= i < |runs| && runs[i].status != RunCompleted;
    if runs != [] {
      var n := |runs| - 1;
      FailedAre(runs[..n]);
      var before := set i | 0 <= i < n && runs[..n][i].status != RunCompleted;
      assert failed == before + if runs[n].status != RunCompleted then {n} else {};
    }
  }

  /** The run imported for a task in one mode. */
  ghost predicate RunFor(runs: seq<EvalRun>, taskId: string, mode: HarnessMode, r: EvalRun) {
    r in runs && r.taskId == taskId && r.mode == mode
  }

  ghost predicate Shows(runs: seq<EvalRun>, reviews: seq<Review>, taskId: string, mode: HarnessMode, runId: Option<string>, state: ReviewState) {
    && (runId == None <==> forall r :: !RunFor(runs, taskId, mode, r))
    && (forall r :: RunFor(runs, taskId, mode, r) ==>
          runId == Some(r.runId) && state == if HasUsable(reviews, r.runId) then StateReviewed else StateUnreviewed)
    && (runId == None ==> state == StateMissing)
  }

  lemma InSlotIsFor(runs: seq<EvalRun>, taskId: string, mode: HarnessMode)
    requires Distinct(Slots(runs))
    ensures forall r :: InSlot(runs, taskId, mode) == Some(r) <==> RunFor(runs, taskId, mode, r)
  {
    BySlotIs(runs);
    hide BySlot;
    hide Distinct;
  }

  lemma ModeShown(runs: seq<EvalRun>, reviews: seq<Review>, taskId: string, mode: HarnessMode)
    requires Distinct(Slots(runs)) && Distinct(ReviewedIds(reviews))
    ensures var run := InSlot(runs, taskId, mode);
            Shows(runs, reviews, taskId, mode, IdOf(run), StateOf(ReviewMap(reviews), run))
  {
    InSlotIsFor(runs, taskId, mode);
    var run := InSlot(runs, taskId, mode);
    if run.Some? {
      ScoreIsGiven(reviews, run.value.runId, CitationErrors);
    }
    hide InSlot;
    hide Gives;
    hide Reviewed;
    hide ReviewMap;
    hide ScoreOf;
    hide Distinct;
    if run.Some? {
      assert RunFor(runs, taskId, mode, run.value);
    }
  }

  /** Each task is shown with the run imported for it in either mode, which counts as reviewed exactly
      when it has a usable review, and as missing when there is no run. */
  lemma CoverageMeans(d: Digests, runs: seq<EvalRun>, reviews: seq<Review>, task: Task, c: TaskCoverage)
    requires Distinct(Slots(runs)) && Distinct(ReviewedIds(reviews)) && Covers(d, runs, ReviewMap(reviews), task, c)
    ensures c.taskId == task.taskId
    ensures Shows(runs, reviews, task.taskId, WithHarness, c.withRunId, c.withState)
    ensures Shows(runs, reviews, task.taskId, WithoutHarness, c.withoutRunId, c.withoutState)
  {
    ModeShown(runs, reviews, task.taskId, WithHarness);
    ModeShown(runs, reviews, task.taskId, WithoutHarness);
    hide InSlot;
    hide Shows;
    hide StateOf;
    hide ReviewMap;
    hide TaskStatus;
  }
}
