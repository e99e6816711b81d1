/** Metrics and the evaluation report; none of their own validators can ever fail. */
module EvaluationReport {
  import opened Collections
  import opened Evaluation
  import opened EvaluationPairing

  // ----- Validation of reviews ----------------------------------------------------------

  function ReviewIds(reviews: seq<Review>): seq<string> {
    seq(|reviews|, i requires 0 <= i < |reviews| => reviews[i].reviewId)
  }

  function ReviewedIds(reviews: seq<Review>): seq<string> {
    seq(|reviews|, i requires 0 <= i < |reviews| => reviews[i].runId)
  }

  /** The review is of this very run, unaltered. */
  predicate ReviewKnown(d: Digests, m: Manifest, runs: seq<EvalRun>, review: Review) {
    && review.manifestHash == m.hash
    && exists r | r in runs ::
         r.runId == review.runId && r.taskId == review.taskId && r.mode == review.mode && d.content(r) == review.runDigest
  }

  ghost predicate ReviewsValid(d: Digests, m: Manifest, runs: seq<EvalRun>, reviews: seq<Review>) {
    && Distinct(ReviewIds(reviews)) && Distinct(ReviewedIds(reviews))
    && forall v | v in reviews :: ReviewKnown(d, m, runs, v)
  }

  function RunMap(runs: seq<EvalRun>): map<string, EvalRun> {
    if runs == [] then map[] else RunMap(runs[..|runs| - 1])[runs[|runs| - 1].runId := runs[|runs| - 1]]
  }

  function ReviewMap(reviews: seq<Review>): map<string, Review> {
    if reviews == [] then map[] else ReviewMap(reviews[..|reviews| - 1])[reviews[|reviews| - 1].runId := reviews[|reviews| - 1]]
  }

  lemma {:induction false} RunMapIs(runs: seq<EvalRun>)
    requires Distinct(RunIds(runs))
    ensures forall r | r in runs :: r.runId in RunMap(runs) && RunMap(runs)[r.runId] == r
    ensures forall id | id in RunMap(runs) :: RunMap(runs)[id] in runs && RunMap(runs)[id].runId == id
  {
    if runs != [] {
      var rest, last := runs[..|runs| - 1], runs[|runs| - 1];
      assert runs == rest + [last];
      assert RunIds(runs) == RunIds(rest) + [last.runId];
      DistinctAppend(RunIds(rest), last.runId);
      RunMapIs(rest);
      forall r | r in rest
        ensures r.runId != last.runId
      {
        var i :| 0 <= i < |rest| && rest[i] == r;
        assert RunIds(rest)[i] == r.runId;
      }
    }
  }

  lemma {:induction false} ReviewMapIs(reviews: seq<Review>)
    ensures forall id | id in ReviewMap(reviews) :: ReviewMap(reviews)[id] in reviews && ReviewMap(reviews)[id].runId == id
  {
    if reviews != [] {
      ReviewMapIs(reviews[..|reviews| - 1]);
    }
  }

  lemma ReviewKnownMeans(d: Digests, m: Manifest, runs: seq<EvalRun>, review: Review)
    requires Distinct(RunIds(runs))
    ensures ReviewKnown(d, m, runs, review) <==>
              && review.manifestHash == m.hash && review.runId in RunMap(runs)
              && review.taskId == RunMap(runs)[review.runId].taskId && review.mode == RunMap(runs)[review.runId].mode
              && review.runDigest == d.content(RunMap(runs)[review.runId])
  {
    RunMapIs(runs);
    hide RunMap;
    hide Distinct;
  }

  lemma ReviewsAppend(d: Digests, m: Manifest, runs: seq<EvalRun>, reviews: seq<Review>, review: Review)
    ensures ReviewsValid(d, m, runs, reviews + [review]) <==>
              && ReviewsValid(d, m, runs, reviews) && ReviewKnown(d, m, runs, review)
              && review.reviewId !in Elems(ReviewIds(reviews)) && review.runId !in Elems(ReviewedIds(reviews))
    ensures Elems(ReviewIds(reviews + [review])) == Elems(ReviewIds(reviews)) + {review.reviewId}
    ensures Elems(ReviewedIds(reviews + [review])) == Elems(ReviewedIds(reviews)) + {review.runId}
  {
    assert ReviewIds(reviews + [review]) == ReviewIds(reviews) + [review.reviewId];
    assert ReviewedIds(reviews + [review]) == ReviewedIds(reviews) + [review.runId];
    DistinctAppend(ReviewIds(reviews), review.reviewId);
    DistinctAppend(ReviewedIds(reviews), review.runId);
    ElemsAppend(ReviewIds(reviews), review.reviewId);
    ElemsAppend(ReviewedIds(reviews), review.runId);
    hide ReviewKnown;
    hide Distinct;
    hide ReviewIds;
    hide ReviewedIds;
    assert review in reviews + [review];
    assert forall v | v in reviews :: v in reviews + [review];
  }

  lemma ReviewsPrefix(d: Digests, m: Manifest, runs: seq<EvalRun>, reviews: seq<Review>, i: nat)
    requires i <= |reviews|
    ensures ReviewsValid(d, m, runs, reviews) ==> ReviewsValid(d, m, runs, reviews[..i])
  {
    hide ReviewKnown;
    if ReviewsValid(d, m, runs, reviews) {
      assert ReviewIds(reviews[..i]) == ReviewIds(reviews)[..i];
      assert ReviewedIds(reviews[..i]) == ReviewedIds(reviews)[..i];
      DistinctPrefix(ReviewIds(reviews), i);
      DistinctPrefix(ReviewedIds(reviews), i);
    }
  }

  /** Rejects the review list at the first review that repeats an id or does not fit its run. */
  method ValidateReviews(d: Digests, m: Manifest, runs: seq<EvalRun>, reviews: seq<Review>) returns (r: Result<map<string, Review>>)
    requires Distinct(RunIds(runs))
    ensures r.Ok? <==> ReviewsValid(d, m, runs, reviews)
    ensures r.Ok? ==> r.value == ReviewMap(reviews)
  {
    hide Distinct;
    hide ReviewKnown;
    var runMap := RunMap(runs);
    var seenReviews: set<string>, seenRuns: set<string> := {}, {};
    assert ReviewsValid(d, m, runs, []) by {
      NoReviews(d, m, runs);
    }
    for i := 0 to |reviews|
      invariant ReviewsValid(d, m, runs, reviews[..i])
      invariant seenReviews == Elems(ReviewIds(reviews[..i])) && seenRuns == Elems(ReviewedIds(reviews[..i]))
    {
      var review := reviews[i];
      ReviewsAppend(d, m, runs, reviews[..i], review);
      ReviewKnownMeans(d, m, runs, review);
      assert reviews[..i + 1] == reviews[..i] + [review];
      ReviewsPrefix(d, m, runs, reviews, i + 1);
      hide ReviewsValid;
      if review.reviewId in seenReviews || review.runId in seenRuns || review.manifestHash != m.hash || review.runId !in runMap {
        return Err("REVIEW_DUPLICATE_OR_UNKNOWN");
      }
      var run := runMap[review.runId];
      if review.taskId != run.taskId || review.mode != run.mode || review.runDigest != d.content(run) {
        return Err("REVIEW_MISMATCH");
      }
      seenReviews := seenReviews + {review.reviewId};
      seenRuns := seenRuns + {review.runId};
    }
    assert reviews[..|reviews|] == reviews;
    r := Ok(ReviewMap(reviews));
  }

  lemma NoReviews(d: Digests, m: Manifest, runs: seq<EvalRun>)
    ensures ReviewsValid(d, m, runs, [])
  {
  }

  // ----- One metric over the runs of one mode -------------------------------------------

  predicate Reviewed(reviews: map<string, Review>, runId: string) {
    runId in reviews && reviews[runId].provenance.Accepted()
  }

  function ScoreOf(reviews: map<string, Review>, runId: string, metric: Metric): Option<real> {
    if Reviewed(reviews, runId) then reviews[runId].Value(metric) else None
  }

  function CountPresent(runs: seq<EvalRun>, reviews: map<string, Review>): nat {
    if runs == [] then 0
    else CountPresent(runs[..|runs| - 1], reviews) + if runs[|runs| - 1].runId in reviews then 1 else 0
  }

  function CountUnreviewed(runs: seq<EvalRun>, reviews: map<string, Review>): nat {
    if runs == [] then 0
    else
      var id := runs[|runs| - 1].runId;
      CountUnreviewed(runs[..|runs| - 1], reviews) + if id in reviews && !Reviewed(reviews, id) then 1 else 0
  }

  /** The values that accepted reviews give, in run order. */
  function Scores(runs: seq<EvalRun>, reviews: map<string, Review>, metric: Metric): seq<real> {
    if runs == [] then []
    else
      var score := ScoreOf(reviews, runs[|runs| - 1].runId, metric);
      Scores(runs[..|runs| - 1], reviews, metric) + if score.Some? then [score.value] else []
  }

  function Sum(values: seq<real>): real {
    if values == [] then 0.0 else Sum(values[..|values| - 1]) + values[|values| - 1]
  }

  function CountPositive(values: seq<real>): nat {
    if values == [] then 0 else CountPositive(values[..|values| - 1]) + if values[|values| - 1] > 0.0 then 1 else 0
  }

  function Mean(values: seq<real>): Option<real> {
    if values == [] then None else Some(Sum(values) / |values| as real)
  }

  function Ratio(part: nat, whole: nat): Option<real> {
    if whole == 0 then None else Some(part as real / whole as real)
  }

  ghost predicate AllValid(reviews: map<string, Review>) {
    forall id | id in reviews :: reviews[id].Valid()
  }

  lemma {:induction false} CountsFit(runs: seq<EvalRun>, reviews: map<string, Review>, metric: Metric)
    ensures |Scores(runs, reviews, metric)| + CountUnreviewed(runs, reviews) <= CountPresent(runs, reviews) <= |runs|
  {
    if runs != [] {
      CountsFit(runs[..|runs| - 1], reviews, metric);
    }
  }

  lemma {:induction false} ScoresNonnegative(runs: seq<EvalRun>, reviews: map<string, Review>, metric: Metric)
    requires AllValid(reviews)
    ensures forall x | x in Scores(runs, reviews, metric) :: x >= 0.0
  {
    if runs != [] {
      ScoresNonnegative(runs[..|runs| - 1], reviews, metric);
    }
  }

  lemma {:induction false} SumsFit(values: seq<real>)
    requires forall x | x in values :: x >= 0.0
    ensures Sum(values) >= 0.0 && CountPositive(values) <= |values|
  {
    if values != [] {
      var rest := values[..|values| - 1];
      forall x | x in rest
        ensures x >= 0.0
      {
        assert x in values;
      }
      SumsFit(rest);
      assert values[|values| - 1] in values;
    }
  }

  lemma MeanFits(values: seq<real>)
    requires forall x | x in values :: x >= 0.0
    ensures Mean(values).Some? ==> Mean(values).value >= 0.0
  {
    SumsFit(values);
    if values != [] {
      QuotientNonnegative(Sum(values), |values| as real);
    }
  }

  lemma QuotientNonnegative(a: real, b: real)
    requires a >= 0.0 && b > 0.0
    ensures a / b >= 0.0
  {
  }

  lemma QuotientAtMostOne(a: real, b: real)
    requires a <= b && b > 0.0
    ensures a / b <= 1.0
  {
    var quotient := a / b;
    assert quotient * b == a;
    assert quotient > 1.0 ==> (quotient - 1.0) * b > 0.0;
  }

  lemma RatioFits(part: nat, whole: nat)
    requires part <= whole
    ensures Ratio(part, whole).Some? ==> 0.0 <= Ratio(part, whole).value <= 1.0
  {
    if whole > 0 {
      QuotientNonnegative(part as real, whole as real);
      QuotientAtMostOne(part as real, whole as real);
    }
  }

  datatype Aggregate = Aggregate(
    metric: Metric,
    denominator: int,
    runPresent: int,
    reviewPresent: int,
    reviewMissing: int,
    unreviewed: int,
    metricMissing: int,
    scorable: int,
    coverage: Option<real>,
    valueSum: Option<real>,
    mean: Option<real>,
    nonzeroCount: Option<nat>,
    nonzeroRate: Option<real>)
  {
    predicate Valid() {
      && denominator >= 0 && runPresent >= 0 && reviewPresent >= 0 && reviewMissing >= 0
      && unreviewed >= 0 && metricMissing >= 0 && scorable >= 0
      && (coverage.Some? ==> 0.0 <= coverage.value <= 1.0 && denominator != 0)
      && (valueSum.Some? ==> valueSum.value >= 0.0) && (mean.Some? ==> mean.value >= 0.0)
      && (nonzeroRate.Some? ==> 0.0 <= nonzeroRate.value <= 1.0)
      && runPresent <= denominator && reviewPresent <= runPresent
      && reviewMissing + reviewPresent == runPresent && unreviewed <= reviewPresent
      && metricMissing + scorable == reviewPresent - unreviewed
    }
  }

  /** The aggregate reports exactly the accepted scores: an absent one is missing, never zero. */
  ghost predicate Aggregates(a: Aggregate, metric: Metric, taskCount: nat, runs: seq<EvalRun>, reviews: map<string, Review>) {
    var scores := Scores(runs, reviews, metric);
    && a.metric == metric && a.denominator == taskCount && a.runPresent == |runs|
    && a.reviewPresent == CountPresent(runs, reviews) && a.unreviewed == CountUnreviewed(runs, reviews)
    && a.scorable == |scores|
    && a.valueSum == (if scores == [] then None else Some(Sum(scores))) && a.mean == Mean(scores)
    && a.nonzeroCount == (if metric.ReviewTimeSeconds? then None else Some(CountPositive(scores)))
    && Rated(a)
  }

  /** The missing counts and the rates of an aggregate follow from its counts and its sum. */
  ghost predicate Rated(a: Aggregate) {
    && a.reviewMissing == a.runPresent - a.reviewPresent
    && a.metricMissing == a.reviewPresent - a.unreviewed - a.scorable
    && (a.coverage.Some? <==> a.denominator != 0)
    && (a.coverage.Some? ==> a.coverage.value * a.denominator as real == a.scorable as real)
    && (a.mean.Some? <==> a.scorable != 0)
    && (a.mean.Some? ==> a.valueSum.Some? && a.mean.value * a.scorable as real == a.valueSum.value)
    && (a.nonzeroRate.Some? <==> a.scorable != 0 && !a.metric.ReviewTimeSeconds?)
    && (a.nonzeroRate.Some? ==> a.nonzeroCount.Some? && a.nonzeroRate.value * a.scorable as real == a.nonzeroCount.value as real)
  }

  lemma SummaryRated(metric: Metric, taskCount: nat, present: nat, reviewPresent: nat, unreviewed: nat, values: seq<real>)
    ensures Rated(Summary(metric, taskCount, present, reviewPresent, unreviewed, values))
  {
    hide Sum;
    hide CountPositive;
  }

  method CollectScores(metric: Metric, runs: seq<EvalRun>, reviews: map<string, Review>) returns (reviewPresent: nat, values: seq<real>)
    ensures reviewPresent == CountPresent(runs, reviews) && values == Scores(runs, reviews, metric)
  {
    hide ScoreOf;
    reviewPresent, values := 0, [];
    for i := 0 to |runs|
      invariant reviewPresent == CountPresent(runs[..i], reviews) && values == Scores(runs[..i], reviews, metric)
    {
      var id := runs[i].runId;
      assert runs[..i + 1][..i] == runs[..i];
      ScoreMeans(reviews, id, metric);
      if id in reviews {
        reviewPresent := reviewPresent + 1;
        if Reviewed(reviews, id) {
          var value := reviews[id].Value(metric);
          if value.Some? {
            values := values + [value.value];
          }
        }
      }
    }
    assert runs[..|runs|] == runs;
  }

  method AggregateMetric(metric: Metric, taskCount: nat, runs: seq<EvalRun>, reviews: map<string, Review>) returns (a: Aggregate)
    requires AllValid(reviews)
    ensures Aggregates(a, metric, taskCount, runs, reviews)
    ensures a.Valid() <==> |runs| <= taskCount
  {
    hide CountPresent;
    hide CountUnreviewed;
    hide Scores;
    hide Mean;
    hide Sum;
    hide CountPositive;
    hide Ratio;
    var reviewPresent, values := CollectScores(metric, runs, reviews);
    var unreviewed := CountUnreviewed(runs, reviews);
    CountsFit(runs, reviews, metric);
    ScoresNonnegative(runs, reviews, metric);
    hide AllValid;
    a := Summary(metric, taskCount, |runs|, reviewPresent, unreviewed, values);
    SummaryFits(metric, taskCount, |runs|, reviewPresent, unreviewed, values);
    SummaryRated(metric, taskCount, |runs|, reviewPresent, unreviewed, values);
    hide Rated;
  }

  function Summary(metric: Metric, taskCount: nat, present: nat, reviewPresent: nat, unreviewed: nat, values: seq<real>): Aggregate {
    Aggregate(metric, taskCount, present, reviewPresent, present - reviewPresent, unreviewed,
              reviewPresent - unreviewed - |values|, |values|, Ratio(|values|, taskCount),
              if values == [] then None else Some(Sum(values)), Mean(values),
              if metric.ReviewTimeSeconds? then None else Some(CountPositive(values)),
              if metric.ReviewTimeSeconds? then None else Ratio(CountPositive(values), |values|))
  }

  lemma SummaryFits(metric: Metric, taskCount: nat, present: nat, reviewPresent: nat, unreviewed: nat, values: seq<real>)
    requires |values| + unreviewed <= reviewPresent <= present && forall x | x in values :: x >= 0.0
    ensures Summary(metric, taskCount, present, reviewPresent, unreviewed, values).Valid() <==> present <= taskCount
  {
    SumsFit(values);
    MeanFits(values);
    RatioFits(CountPositive(values), |values|);
    RatioDefined(|values|, taskCount);
    if |values| <= taskCount {
      RatioFits(|values|, taskCount);
    }
    hide Ratio;
    hide Mean;
    hide Sum;
    hide CountPositive;
  }

  lemma RatioIs(part: nat, whole: nat)
    ensures Ratio(part, whole).Some? ==> Ratio(part, whole).value * whole as real == part as real
  {
  }

  lemma RatioDefined(part: nat, whole: nat)
    ensures Ratio(part, whole).Some? <==> whole != 0
  {
  }

  lemma ScoreMeans(reviews: map<string, Review>, id: string, metric: Metric)
    ensures ScoreOf(reviews, id, metric) == if Reviewed(reviews, id) then reviews[id].Value(metric) else None
  {
  }

  // ----- One metric over the pairs ------------------------------------------------------

  datatype Comparison = Comparison(
    metric: Metric,
    denominator: int,
    comparable: int,
    missing: int,
    coverage: Option<real>,
    withMean: Option<real>,
    withoutMean: Option<real>,
    delta: Option<real>)
  {
    predicate Valid() {
      && denominator >= 0 && comparable >= 0 && missing >= 0
      && comparable + missing == denominator
      && (coverage.Some? ==> 0.0 <= coverage.value <= 1.0 && denominator != 0)
      && (withMean.Some? ==> withMean.value >= 0.0) && (withoutMean.Some? ==> withoutMean.value >= 0.0)
    }
  }

  predicate PairScored(pair: RunPair, reviews: map<string, Review>, metric: Metric) {
    ScoreOf(reviews, pair.withRunId, metric).Some? && ScoreOf(reviews, pair.withoutRunId, metric).Some?
  }

  /** The scores of the pairs in which both runs have one. */
  function PairScores(pairs: seq<RunPair>, reviews: map<string, Review>, metric: Metric, mode: HarnessMode): seq<real> {
    if pairs == [] then []
    else
      var last := pairs[|pairs| - 1];
      PairScores(pairs[..|pairs| - 1], reviews, metric, mode)
      + if PairScored(last, reviews, metric) then
          [ScoreOf(reviews, if mode.WithHarness? then last.withRunId else last.withoutRunId, metric).value]
        else []
  }

  lemma {:induction false} PairScoresFit(pairs: seq<RunPair>, reviews: map<string, Review>, metric: Metric)
    requires AllValid(reviews)
    ensures |PairScores(pairs, reviews, metric, WithHarness)| == |PairScores(pairs, reviews, metric, WithoutHarness)| <= |pairs|
    ensures forall mode :: forall x | x in PairScores(pairs, reviews, metric, mode) :: x >= 0.0
  {
    if pairs != [] {
      PairScoresFit(pairs[..|pairs| - 1], reviews, metric);
    }
  }

  method CollectPairScores(metric: Metric, pairs: seq<RunPair>, reviews: map<string, Review>) returns (w: seq<real>, o: seq<real>)
    ensures w == PairScores(pairs, reviews, metric, WithHarness) && o == PairScores(pairs, reviews, metric, WithoutHarness)
  {
    hide ScoreOf;
    w, o := [], [];
    for i := 0 to |pairs|
      invariant w == PairScores(pairs[..i], reviews, metric, WithHarness)
      invariant o == PairScores(pairs[..i], reviews, metric, WithoutHarness)
    {
      var pair := pairs[i];
      assert pairs[..i + 1][..i] == pairs[..i];
      ScoreMeans(reviews, pair.withRunId, metric);
      ScoreMeans(reviews, pair.withoutRunId, metric);
      if Reviewed(reviews, pair.withRunId) && Reviewed(reviews, pair.withoutRunId) {
        var withValue, withoutValue := reviews[pair.withRunId].Value(metric), reviews[pair.withoutRunId].Value(metric);
        if withValue.Some? && withoutValue.Some? {
          w := w + [withValue.value];
          o := o + [withoutValue.value];
        }
      }
    }
    assert pairs[..|pairs|] == pairs;
  }

  function Compare(metric: Metric, total: nat, w: seq<real>, o: seq<real>): Comparison {
    Comparison(metric, total, |w|, total - |w|, Ratio(|w|, total), Mean(w), Mean(o),
               if w == [] || o == [] then None else Some(Mean(o).value - Mean(w).value))
  }

  lemma CompareFits(metric: Metric, total: nat, w: seq<real>, o: seq<real>)
    requires |w| <= total && (forall x | x in w :: x >= 0.0) && (forall x | x in o :: x >= 0.0)
    ensures Compare(metric, total, w, o).Valid()
  {
    MeanFits(w);
    MeanFits(o);
    RatioFits(|w|, total);
    RatioDefined(|w|, total);
    hide Ratio;
    hide Sum;
  }

  /** The comparison speaks of the pairs in which both runs have an accepted score, and no others. */
  method PairedMetric(metric: Metric, pairs: seq<RunPair>, reviews: map<string, Review>) returns (c: Comparison)
    requires AllValid(reviews)
    ensures c.Valid()
    ensures c == Compare(metric, |pairs|, PairScores(pairs, reviews, metric, WithHarness), PairScores(pairs, reviews, metric, WithoutHarness))
  {
    hide PairScores;
    hide Compare;
    var w, o := CollectPairScores(metric, pairs, reviews);
    PairScoresFit(pairs, reviews, metric);
    c := Compare(metric, |pairs|, w, o);
    CompareFits(metric, |pairs|, w, o);
  }

  // ----- The report ---------------------------------------------------------------------

  datatype ReviewState = StateReviewed | StateUnreviewed | StateMissing

  datatype TaskCoverage = TaskCoverage(
    taskId: string,
    withRunId: Option<string>,
    withoutRunId: Option<string>,
    withState: ReviewState,
    withoutState: ReviewState,
    pairStatus: PairStatus)

  datatype Report = Report(
    taskCount: int,
    expectedRuns: int,
    runCount: int,
    missingRuns: int,
    failedRuns: int,
    completedRuns: int,
    pairedTasks: int,
    pairCoverage: Option<real>,
    unpairedRuns: int,
    pairing: Pairing,
    coverage: seq<TaskCoverage>,
    withMetrics: seq<Aggregate>,
    withoutMetrics: seq<Aggregate>,
    pairedMetrics: seq<Comparison>)
  {
    predicate Valid() {
      && taskCount >= 1 && expectedRuns >= 0 && runCount >= 0 && missingRuns >= 0 && failedRuns >= 0 && completedRuns >= 0
      && pairedTasks >= 0 && unpairedRuns >= 0
      && (pairCoverage.Some? ==> 0.0 <= pairCoverage.value <= 1.0 && taskCount != 0)
      && expectedRuns == taskCount * 2 && runCount + missingRuns == expectedRuns
      && completedRuns + failedRuns == runCount && pairedTasks <= taskCount
    }
  }

  const METRICS := [CitationErrors, MaterialOmissions, FalseAccepts, FalseRefusals, ReviewTimeSeconds]

  function OfMode(runs: seq<EvalRun>, mode: HarnessMode): seq<EvalRun> {
    if runs == [] then []
    else
      var last := runs[|runs| - 1];
      OfMode(runs[..|runs| - 1], mode) + if last.mode == mode then [last] else []
  }

  function CountFailed(runs: seq<EvalRun>): nat {
    if runs == [] then 0
    else CountFailed(runs[..|runs| - 1]) + if runs[|runs| - 1].status.RunCompleted? then 0 else 1
  }

  lemma {:induction false} FailedFit(runs: seq<EvalRun>)
    ensures CountFailed(runs) <= |runs|
  {
    if runs != [] {
      FailedFit(runs[..|runs| - 1]);
    }
  }

  lemma {:induction false} OfModeValid(m: Manifest, runs: seq<EvalRun>, mode: HarnessMode)
    requires RunsValid(m, runs)
    ensures RunsValid(m, OfMode(runs, mode))
    ensures forall r | r in OfMode(runs, mode) :: r.mode == mode && r in runs
  {
    hide RunKnown;
    hide Distinct;
    hide RunsValid;
    if runs == [] {
      NoRuns(m);
    } else {
      var rest, last := runs[..|runs| - 1], runs[|runs| - 1];
      assert runs == rest + [last];
      RunsAppend(m, rest, last);
      OfModeValid(m, rest, mode);
      var part := OfMode(rest, mode);
      RunsAppend(m, part, last);
      FewerIds(rest, part);
      assert OfMode(runs, mode) == if last.mode == mode then part + [last] else part;
      hide Elems;
    }
  }

  lemma FewerIds(runs: seq<EvalRun>, part: seq<EvalRun>)
    requires forall r | r in part :: r in runs
    ensures Elems(RunIds(part)) <= Elems(RunIds(runs)) && Elems(Slots(part)) <= Elems(Slots(runs))
  {
    forall i | 0 <= i < |part|
      ensures RunIds(part)[i] in Elems(RunIds(runs)) && Slots(part)[i] in Elems(Slots(runs))
    {
      assert part[i] in part;
      var j :| 0 <= j < |runs| && runs[j] == part[i];
      assert RunIds(runs)[j] == RunIds(part)[i] && Slots(runs)[j] == Slots(part)[i];
    }
  }

  /** One valid aggregate for each metric, over the runs of one mode. */
  ghost predicate MetricsOf(aggregates: seq<Aggregate>, m: Manifest, runs: seq<EvalRun>, reviews: map<string, Review>, mode: HarnessMode) {
    && |aggregates| == |METRICS|
    && forall k | 0 <= k < |METRICS| ::
         aggregates[k].Valid() && Aggregates(aggregates[k], METRICS[k], |m.tasks|, OfMode(runs, mode), reviews)
  }

  /** The aggregates of one mode; by counting slots, none is ever invalid. */
  method HarnessMetrics(m: Manifest, runs: seq<EvalRun>, reviews: map<string, Review>, mode: HarnessMode)
    returns (r: Result<seq<Aggregate>>)
    requires m.Valid() && RunsValid(m, runs) && AllValid(reviews)
    ensures r.Ok? && MetricsOf(r.value, m, runs, reviews, mode)
  {
    OfModeValid(m, runs, mode);
    ModeRunsFew(m, OfMode(runs, mode), mode);
    hide Aggregates;
    hide RunsValid;
    hide AllValid;
    var aggregates: seq<Aggregate> := [];
    for k := 0 to |METRICS|
      invariant |aggregates| == k
      invariant forall j | 0 <= j < k ::
                  aggregates[j].Valid() && Aggregates(aggregates[j], METRICS[j], |m.tasks|, OfMode(runs, mode), reviews)
    {
      var a := AggregateMetric(METRICS[k], |m.tasks|, OfMode(runs, mode), reviews);
      if !a.Valid() {
        return Err("METRIC_INVALID");
      }
      aggregates := aggregates + [a];
    }
    r := Ok(aggregates);
  }

  /** One valid comparison for each metric, over the pairs. */
  ghost predicate ComparisonsOf(comparisons: seq<Comparison>, pairs: seq<RunPair>, reviews: map<string, Review>) {
    && |comparisons| == |METRICS|
    && forall k | 0 <= k < |METRICS| ::
         && comparisons[k].Valid()
         && comparisons[k] == Compare(METRICS[k], |pairs|, PairScores(pairs, reviews, METRICS[k], WithHarness),
                                      PairScores(pairs, reviews, METRICS[k], WithoutHarness))
  }

  method PairedMetrics(pairs: seq<RunPair>, reviews: map<string, Review>) returns (comparisons: seq<Comparison>)
    requires AllValid(reviews)
    ensures ComparisonsOf(comparisons, pairs, reviews)
  {
    hide AllValid;
    hide Compare;
    hide PairScores;
    comparisons := [];
    for k := 0 to |METRICS|
      invariant |comparisons| == k
      invariant forall j | 0 <= j < k ::
                  && comparisons[j].Valid()
                  && comparisons[j] == Compare(METRICS[j], |pairs|, PairScores(pairs, reviews, METRICS[j], WithHarness),
                                               PairScores(pairs, reviews, METRICS[j], WithoutHarness))
    {
      var c := PairedMetric(METRICS[k], pairs, reviews);
      comparisons := comparisons + [c];
    }
  }

  function StateOf(reviews: map<string, Review>, run: Option<EvalRun>): ReviewState {
    if run.None? then StateMissing
    else if Reviewed(reviews, run.value.runId) then StateReviewed
    else StateUnreviewed
  }

  function FindRejection(rejections: seq<Rejection>, taskId: string): Option<Rejection> {
    if rejections == [] then None
    else if rejections[0].taskId == taskId then Some(rejections[0])
    else FindRejection(rejections[1..], taskId)
  }

  lemma {:induction false} FindRejectionIs(rejections: seq<Rejection>, taskId: string)
    ensures FindRejection(rejections, taskId).None? <==> forall x | x in rejections :: x.taskId != taskId
    ensures FindRejection(rejections, taskId).Some? ==>
              FindRejection(rejections, taskId).value in rejections && FindRejection(rejections, taskId).value.taskId == taskId
  {
    if rejections != [] {
      FindRejectionIs(rejections[1..], taskId);
      assert rejections == [rejections[0]] + rejections[1..];
    }
  }

  lemma {:induction false} RejectionsArise(d: Digests, tasks: seq<Task>, runs: seq<EvalRun>)
    ensures forall x | x in RejectionsOf(d, tasks, runs) :: x.status == TaskStatus(d, runs, x.taskId) && !x.status.Paired?
    ensures forall t | t in tasks && !TaskStatus(d, runs, t.taskId).Paired? ::
              exists x :: x in RejectionsOf(d, tasks, runs) && x.taskId == t.taskId
  {
    hide TaskStatus;
    hide InSlot;
    if tasks != [] {
      var rest, last := tasks[..|tasks| - 1], tasks[|tasks| - 1];
      var before, after := RejectionsOf(d, rest, runs), RejectionsOf(d, tasks, runs);
      assert tasks == rest + [last];
      RejectionsArise(d, rest, runs);
      forall t | t in tasks && !TaskStatus(d, runs, t.taskId).Paired?
        ensures exists x :: x in after && x.taskId == t.taskId
      {
        if t == last {
          assert after[|after| - 1] in after && after[|after| - 1].taskId == t.taskId;
        } else {
          var x :| x in before && x.taskId == t.taskId;
          assert x in after;
        }
      }
    }
  }

  /** The status a task is shown with is the one the pairing gave it. */
  ghost predicate Covers(d: Digests, runs: seq<EvalRun>, reviews: map<string, Review>, task: Task, c: TaskCoverage) {
    && c.taskId == task.taskId && c.pairStatus == TaskStatus(d, runs, task.taskId)
    && c.withRunId == IdOf(InSlot(runs, task.taskId, WithHarness)) && c.withoutRunId == IdOf(InSlot(runs, task.taskId, WithoutHarness))
    && c.withState == StateOf(reviews, InSlot(runs, task.taskId, WithHarness))
    && c.withoutState == StateOf(reviews, InSlot(runs, task.taskId, WithoutHarness))
  }

  method CoverTasks(d: Digests, tasks: seq<Task>, runs: seq<EvalRun>, reviews: map<string, Review>, rejections: seq<Rejection>)
    returns (coverage: seq<TaskCoverage>)
    requires rejections == RejectionsOf(d, tasks, runs)
    ensures |coverage| == |tasks| && forall i | 0 <= i < |tasks| :: Covers(d, runs, reviews, tasks[i], coverage[i])
  {
    RejectionsArise(d, tasks, runs);
    hide RejectionsOf;
    hide TaskStatus;
    hide InSlot;
    hide StateOf;
    coverage := [];
    for i := 0 to |tasks|
      invariant |coverage| == i && forall j | 0 <= j < i :: Covers(d, runs, reviews, tasks[j], coverage[j])
    {
      var id := tasks[i].taskId;
      assert tasks[i] in tasks;
      var withRun, withoutRun := InSlot(runs, id, WithHarness), InSlot(runs, id, WithoutHarness);
      var rejection := FindRejection(rejections, id);
      FindRejectionIs(rejections, id);
      coverage := coverage + [TaskCoverage(id, IdOf(withRun), IdOf(withoutRun), StateOf(reviews, withRun), StateOf(reviews, withoutRun),
                                           if rejection.None? then Paired else rejection.value.status)];
    }
  }

  /** Scoring fails only on runs or reviews that do not validate. The report then accounts for
      every task and every run, and all of its validators hold. */
  method ScoreEvaluation(d: Digests, m: Manifest, runs: seq<EvalRun>, reviews: seq<Review>) returns (r: Result<Report>)
    requires m.Valid() && forall v | v in reviews :: v.Valid()
    ensures r.Ok? <==> RunsValid(m, runs) && ReviewsValid(d, m, runs, reviews)
    ensures r.Ok? ==> r.value.Valid()
    ensures r.Ok? ==> r.value.pairing == Pairing(PairsOf(d, m.tasks, runs), RejectionsOf(d, m.tasks, runs))
    ensures r.Ok? ==> r.value.taskCount == |m.tasks| == |r.value.pairing.pairs| + |r.value.pairing.rejections|
    ensures r.Ok? ==> r.value.runCount == |runs| == 2 * r.value.pairedTasks + r.value.unpairedRuns
    ensures r.Ok? ==> r.value.failedRuns == CountFailed(runs)
    ensures r.Ok? ==>
              && r.value.expectedRuns == 2 * |m.tasks| && r.value.missingRuns == 2 * |m.tasks| - |runs|
              && r.value.completedRuns == |runs| - CountFailed(runs) && r.value.pairedTasks == |r.value.pairing.pairs|
              && r.value.pairCoverage.Some? && r.value.pairCoverage.value * |m.tasks| as real == r.value.pairedTasks as real
    ensures r.Ok? ==>
              && |r.value.coverage| == |m.tasks|
              && forall i | 0 <= i < |m.tasks| :: Covers(d, runs, ReviewMap(reviews), m.tasks[i], r.value.coverage[i])
    ensures r.Ok? ==> ComparisonsOf(r.value.pairedMetrics, r.value.pairing.pairs, ReviewMap(reviews))
    ensures r.Ok? ==> MetricsOf(r.value.withMetrics, m, runs, ReviewMap(reviews), WithHarness)
    ensures r.Ok? ==> MetricsOf(r.value.withoutMetrics, m, runs, ReviewMap(reviews), WithoutHarness)
  {
    hide RunsValid;
    hide ReviewsValid;
    hide PairsOf;
    hide RejectionsOf;
    hide Covers;
    hide ReviewMap;
    hide Distinct;
    hide RejectedIds;
    hide CountFailed;
    hide Ratio;
    hide MetricsOf;
    hide ComparisonsOf;
    var ok := ValidateRuns(m, runs);
    if !ok {
      return Err("RUNS_INVALID");
    }
    RunsHaveIds(m, runs);
    var reviewMap := ValidateReviews(d, m, runs, reviews);
    if reviewMap.Err? {
      return Err(reviewMap.error);
    }
    MapValid(reviews);
    var pairing := PairRuns(d, m, runs);
    RunsConserved(d, m, runs);
    TasksConserved(d, m.tasks, runs);
    FailedFit(runs);
    var coverage := CoverTasks(d, m.tasks, runs, reviewMap.value, pairing.value.rejections);
    var withMetrics := HarnessMetrics(m, runs, reviewMap.value, WithHarness);
    var withoutMetrics := HarnessMetrics(m, runs, reviewMap.value, WithoutHarness);
    var pairedMetrics := PairedMetrics(pairing.value.pairs, reviewMap.value);
    RatioFits(|pairing.value.pairs|, |m.tasks|);
    RatioDefined(|pairing.value.pairs|, |m.tasks|);
    RatioIs(|pairing.value.pairs|, |m.tasks|);
    hide AllValid;
    var failed := CountFailed(runs);
    var report := Report(|m.tasks|, |m.tasks| * 2, |runs|, |m.tasks| * 2 - |runs|, failed, |runs| - failed,
                         |pairing.value.pairs|, Ratio(|pairing.value.pairs|, |m.tasks|), |RejectedIds(pairing.value.rejections)|,
                         pairing.value, coverage, withMetrics.value, withoutMetrics.value, pairedMetrics);
    if !report.Valid() {
      return Err("REPORT_INVALID");
    }
    r := Ok(report);
  }

  lemma RunsHaveIds(m: Manifest, runs: seq<EvalRun>)
    requires RunsValid(m, runs)
    ensures Distinct(RunIds(runs))
  {
  }

  lemma MapValid(reviews: seq<Review>)
    requires forall v | v in reviews :: v.Valid()
    ensures AllValid(ReviewMap(reviews))
  {
    ReviewMapIs(reviews);
    hide ReviewMap;
  }
}
