/** Laws of the pairing: it is fair, complete, and loses no task and no run. */
module EvaluationPairing {
  import opened Collections
  import opened Evaluation

  lemma {:induction false} PairsArise(d: Digests, tasks: seq<Task>, runs: seq<EvalRun>)
    ensures forall p | p in PairsOf(d, tasks, runs) ::
              exists t :: t in tasks && TaskStatus(d, runs, t.taskId).Paired?
                          && p == PairOf(InSlot(runs, t.taskId, WithHarness).value, InSlot(runs, t.taskId, WithoutHarness).value, t.taskId)
    ensures forall t | t in tasks && TaskStatus(d, runs, t.taskId).Paired? ::
              PairOf(InSlot(runs, t.taskId, WithHarness).value, InSlot(runs, t.taskId, WithoutHarness).value, t.taskId)
              in PairsOf(d, tasks, runs)
  {
    hide InSlot;
    if tasks != [] {
      var rest, last := tasks[..|tasks| - 1], tasks[|tasks| - 1];
      assert tasks == rest + [last];
      PairsArise(d, rest, runs);
    }
  }

  /** The two runs differ in nothing but the harness. */
  predicate Comparable(d: Digests, w: EvalRun, o: EvalRun) {
    && w.taskId == o.taskId && w.status.RunCompleted? && o.status.RunCompleted?
    && w.model == o.model && d.config(w.config) == d.config(o.config)
  }

  lemma SlotOf(runs: seq<EvalRun>, run: EvalRun)
    requires Distinct(Slots(runs)) && run in runs
    ensures InSlot(runs, run.taskId, run.mode) == Some(run)
  {
    BySlotIs(runs);
  }

  lemma SlotHolds(runs: seq<EvalRun>, taskId: string, mode: HarnessMode)
    requires Distinct(Slots(runs)) && InSlot(runs, taskId, mode).Some?
    ensures InSlot(runs, taskId, mode).value in runs
    ensures InSlot(runs, taskId, mode).value.taskId == taskId && InSlot(runs, taskId, mode).value.mode == mode
  {
    BySlotIs(runs);
  }

  lemma SameId(runs: seq<EvalRun>, a: EvalRun, b: EvalRun)
    requires Distinct(RunIds(runs)) && a in runs && b in runs && a.runId == b.runId
    ensures a == b
  {
    var i :| 0 <= i < |runs| && runs[i] == a;
    var j :| 0 <= j < |runs| && runs[j] == b;
    assert RunIds(runs)[i] == RunIds(runs)[j];
  }

  /** Each pair names a task, its question and the manifest, the model and the configuration of the run
      with the harness, and the two runs, which are comparable. */
  lemma PairsSay(d: Digests, m: Manifest, runs: seq<EvalRun>, p: RunPair) returns (w: EvalRun, o: EvalRun)
    requires m.Valid() && RunsValid(m, runs) && p in PairsOf(d, m.tasks, runs)
    ensures w in runs && o in runs && w.mode.WithHarness? && o.mode.WithoutHarness? && Comparable(d, w, o)
    ensures p.withRunId == w.runId && p.withoutRunId == o.runId
    ensures p.taskId == w.taskId && p.manifestHash == m.hash && p.questionHash == w.questionHash
    ensures p.model == w.model && p.config == w.config
    ensures exists t :: t in m.tasks && t.taskId == p.taskId && t.questionHash == p.questionHash
  {
    PairsArise(d, m.tasks, runs);
    hide PairsOf;
    hide InSlot;
    var t :| t in m.tasks && TaskStatus(d, runs, t.taskId).Paired?
             && p == PairOf(InSlot(runs, t.taskId, WithHarness).value, InSlot(runs, t.taskId, WithoutHarness).value, t.taskId);
    w, o := InSlot(runs, t.taskId, WithHarness).value, InSlot(runs, t.taskId, WithoutHarness).value;
    SlotHolds(runs, t.taskId, WithHarness);
    SlotHolds(runs, t.taskId, WithoutHarness);
    assert RunKnown(m, w) && RunKnown(m, o);
  }

  /** Two runs of opposite modes are paired exactly when they are comparable. */
  lemma PairingIsFair(d: Digests, m: Manifest, runs: seq<EvalRun>, w: EvalRun, o: EvalRun)
    requires m.Valid() && RunsValid(m, runs) && w in runs && o in runs && w.mode.WithHarness? && o.mode.WithoutHarness?
    ensures (exists p :: p in PairsOf(d, m.tasks, runs) && p.withRunId == w.runId && p.withoutRunId == o.runId) <==>
              Comparable(d, w, o)
  {
    PairsArise(d, m.tasks, runs);
    hide PairsOf;
    hide InSlot;
    if p :| p in PairsOf(d, m.tasks, runs) && p.withRunId == w.runId && p.withoutRunId == o.runId {
      var t :| t in m.tasks && TaskStatus(d, runs, t.taskId).Paired?
               && p == PairOf(InSlot(runs, t.taskId, WithHarness).value, InSlot(runs, t.taskId, WithoutHarness).value, t.taskId);
      SlotHolds(runs, t.taskId, WithHarness);
      SlotHolds(runs, t.taskId, WithoutHarness);
      SameId(runs, w, InSlot(runs, t.taskId, WithHarness).value);
      SameId(runs, o, InSlot(runs, t.taskId, WithoutHarness).value);
    }
    if Comparable(d, w, o) {
      SlotOf(runs, w);
      SlotOf(runs, o);
      assert RunKnown(m, w);
      var t :| t in m.tasks && t.taskId == w.taskId && t.questionHash == w.questionHash;
      assert PairOf(w, o, w.taskId) in PairsOf(d, m.tasks, runs);
    }
  }

  // ----- Conservation -------------------------------------------------------------------

  /** Every task is either paired or rejected, once. */
  lemma {:induction false} TasksConserved(d: Digests, tasks: seq<Task>, runs: seq<EvalRun>)
    ensures |PairsOf(d, tasks, runs)| + |RejectionsOf(d, tasks, runs)| == |tasks|
  {
    hide TaskStatus;
    hide InSlot;
    if tasks != [] {
      TasksConserved(d, tasks[..|tasks| - 1], runs);
    }
  }

  function RejectedIds(rejections: seq<Rejection>): set<string> {
    if rejections == [] then {}
    else
      var last := rejections[|rejections| - 1];
      RejectedIds(rejections[..|rejections| - 1])
      + (if last.withRunId.Some? then {last.withRunId.value} else {})
      + (if last.withoutRunId.Some? then {last.withoutRunId.value} else {})
  }

  /** The ids of the runs of the given tasks. */
  ghost function IdsFor(tasks: seq<Task>, runs: seq<EvalRun>): set<string> {
    set r | r in runs && r.taskId in TaskIds(tasks) :: r.runId
  }

  /** The ids of the runs in the two slots of one task. */
  ghost function SlotIds(runs: seq<EvalRun>, taskId: string): set<string> {
    (if InSlot(runs, taskId, WithHarness).Some? then {InSlot(runs, taskId, WithHarness).value.runId} else {})
    + (if InSlot(runs, taskId, WithoutHarness).Some? then {InSlot(runs, taskId, WithoutHarness).value.runId} else {})
  }

  lemma SlotIdsAre(runs: seq<EvalRun>, taskId: string)
    requires Distinct(RunIds(runs)) && Distinct(Slots(runs))
    ensures SlotIds(runs, taskId) == set r | r in runs && r.taskId == taskId :: r.runId
    ensures InSlot(runs, taskId, WithHarness).Some? && InSlot(runs, taskId, WithoutHarness).Some? ==> |SlotIds(runs, taskId)| == 2
  {
    var w, o := InSlot(runs, taskId, WithHarness), InSlot(runs, taskId, WithoutHarness);
    if w.Some? {
      SlotHolds(runs, taskId, WithHarness);
    }
    if o.Some? {
      SlotHolds(runs, taskId, WithoutHarness);
    }
    hide Distinct;
    hide InSlot;
    forall r | r in runs && r.taskId == taskId
      ensures r.runId in SlotIds(runs, taskId)
    {
      SlotOf(runs, r);
      match r.mode
      case WithHarness => assert w == Some(r);
      case WithoutHarness => assert o == Some(r);
    }
    if w.Some? && o.Some? {
      if w.value.runId == o.value.runId {
        SameId(runs, w.value, o.value);
      }
      assert w.value.runId != o.value.runId;
    }
  }

  lemma IdsForAppend(tasks: seq<Task>, last: Task, runs: seq<EvalRun>)
    requires Distinct(RunIds(runs)) && Distinct(Slots(runs)) && last.taskId !in TaskIds(tasks)
    ensures IdsFor(tasks + [last], runs) == IdsFor(tasks, runs) + SlotIds(runs, last.taskId)
    ensures IdsFor(tasks, runs) !! SlotIds(runs, last.taskId)
  {
    SlotIdsAre(runs, last.taskId);
    TaskIdsAppend(tasks, last);
    hide SlotIds;
    hide TaskIds;
    hide Distinct;
    forall id | id in IdsFor(tasks, runs)
      ensures id !in SlotIds(runs, last.taskId)
    {
      if id in SlotIds(runs, last.taskId) {
        var a :| a in runs && a.taskId in TaskIds(tasks) && a.runId == id;
        var b :| b in runs && b.taskId == last.taskId && b.runId == id;
        SameId(runs, a, b);
      }
    }
  }

  lemma TaskIdsAppend(tasks: seq<Task>, last: Task)
    ensures forall id :: id in TaskIds(tasks + [last]) <==> id in TaskIds(tasks) || id == last.taskId
  {
    assert TaskIds(tasks + [last]) == TaskIds(tasks) + [last.taskId];
  }

  lemma DisjointUnion(a: set<string>, b: set<string>, part: set<string>)
    requires a !! b && part <= a
    ensures |a + b| == |a| + |b| && |part + b| == |part| + |b| && part + b <= a + b
  {
    assert part !! b;
  }

  lemma RejectionsStep(d: Digests, tasks: seq<Task>, last: Task, runs: seq<EvalRun>)
    ensures RejectedIds(RejectionsOf(d, tasks + [last], runs)) ==
              RejectedIds(RejectionsOf(d, tasks, runs))
              + if TaskStatus(d, runs, last.taskId).Paired? then {} else SlotIds(runs, last.taskId)
    ensures |PairsOf(d, tasks + [last], runs)| == |PairsOf(d, tasks, runs)| + if TaskStatus(d, runs, last.taskId).Paired? then 1 else 0
  {
    hide InSlot;
    hide TaskStatus;
    hide RejectedIds;
    var status, before := TaskStatus(d, runs, last.taskId), RejectionsOf(d, tasks, runs);
    var rejection := Rejection(last.taskId, status, IdOf(InSlot(runs, last.taskId, WithHarness)), IdOf(InSlot(runs, last.taskId, WithoutHarness)));
    assert (tasks + [last])[..|tasks|] == tasks;
    assert RejectionsOf(d, tasks + [last], runs) == if status.Paired? then before else before + [rejection];
    RejectedAppend(before, rejection);
  }

  lemma {:induction false} PrefixConserved(d: Digests, tasks: seq<Task>, runs: seq<EvalRun>)
    requires Distinct(TaskIds(tasks)) && Distinct(RunIds(runs)) && Distinct(Slots(runs))
    ensures RejectedIds(RejectionsOf(d, tasks, runs)) <= IdsFor(tasks, runs)
    ensures |IdsFor(tasks, runs)| == 2 * |PairsOf(d, tasks, runs)| + |RejectedIds(RejectionsOf(d, tasks, runs))|
  {
    hide InSlot;
    hide Distinct;
    hide SlotIds;
    if tasks == [] {
      assert IdsFor(tasks, runs) == {};
    } else {
      hide IdsFor;
      hide RejectedIds;
      hide RejectionsOf;
      hide PairsOf;
      var rest, last := tasks[..|tasks| - 1], tasks[|tasks| - 1];
      assert tasks == rest + [last];
      assert TaskIds(tasks) == TaskIds(rest) + [last.taskId];
      hide TaskIds;
      DistinctAppend(TaskIds(rest), last.taskId);
      PrefixConserved(d, rest, runs);
      IdsForAppend(rest, last, runs);
      SlotIdsAre(runs, last.taskId);
      RejectionsStep(d, rest, last, runs);
      DisjointUnion(IdsFor(rest, runs), SlotIds(runs, last.taskId), RejectedIds(RejectionsOf(d, rest, runs)));
    }
  }

  lemma RejectedAppend(rejections: seq<Rejection>, last: Rejection)
    ensures RejectedIds(rejections + [last]) ==
              RejectedIds(rejections)
              + ((if last.withRunId.Some? then {last.withRunId.value} else {})
                 + (if last.withoutRunId.Some? then {last.withoutRunId.value} else {}))
  {
    assert (rejections + [last])[..|rejections|] == rejections;
  }

  /** Every run is in a pair or accounted for as unpaired, and there are at most two to a task. */
  lemma RunsConserved(d: Digests, m: Manifest, runs: seq<EvalRun>)
    requires m.Valid() && RunsValid(m, runs)
    ensures |runs| == 2 * |PairsOf(d, m.tasks, runs)| + |RejectedIds(RejectionsOf(d, m.tasks, runs))|
    ensures |runs| <= 2 * |m.tasks|
  {
    PrefixConserved(d, m.tasks, runs);
    TasksConserved(d, m.tasks, runs);
    RejectedIdsFew(RejectionsOf(d, m.tasks, runs));
    hide PairsOf;
    hide RejectionsOf;
    hide RejectedIds;
    assert IdsFor(m.tasks, runs) == Elems(RunIds(runs)) by {
      AllRunsKnown(m, runs);
    }
    DistinctCardinality(RunIds(runs));
  }

  lemma AllRunsKnown(m: Manifest, runs: seq<EvalRun>)
    requires RunsValid(m, runs)
    ensures IdsFor(m.tasks, runs) == Elems(RunIds(runs))
  {
    forall i | 0 <= i < |runs|
      ensures RunIds(runs)[i] in IdsFor(m.tasks, runs)
    {
      assert runs[i] in runs && RunKnown(m, runs[i]);
      TaskListed(m.tasks, runs[i]);
    }
    forall r | r in runs
      ensures r.runId in Elems(RunIds(runs))
    {
      var i :| 0 <= i < |runs| && runs[i] == r;
      assert RunIds(runs)[i] == r.runId;
    }
  }

  lemma TaskListed(tasks: seq<Task>, run: EvalRun)
    requires exists t :: t in tasks && t.taskId == run.taskId
    ensures run.taskId in TaskIds(tasks)
  {
    var t :| t in tasks && t.taskId == run.taskId;
    var i :| 0 <= i < |tasks| && tasks[i] == t;
    assert TaskIds(tasks)[i] == run.taskId;
  }

  lemma {:induction false} RejectedIdsFew(rejections: seq<Rejection>)
    ensures |RejectedIds(rejections)| <= 2 * |rejections|
  {
    if rejections != [] {
      var rest, last := rejections[..|rejections| - 1], rejections[|rejections| - 1];
      RejectedIdsFew(rest);
      var before := RejectedIds(rest);
      var middle := before + if last.withRunId.Some? then {last.withRunId.value} else {};
      var after := middle + if last.withoutRunId.Some? then {last.withoutRunId.value} else {};
      assert |middle| <= |before| + 1;
      assert |after| <= |middle| + 1;
      assert RejectedIds(rejections) == after;
    }
  }

  /** The runs of one mode never outnumber the tasks. */
  lemma ModeRunsFew(m: Manifest, runs: seq<EvalRun>, mode: HarnessMode)
    requires m.Valid() && RunsValid(m, runs) && forall r | r in runs :: r.mode == mode
    ensures |runs| <= |m.tasks|
  {
    var ids := seq(|runs|, i requires 0 <= i < |runs| => runs[i].taskId);
    forall i, j | 0 <= i < j < |runs|
      ensures ids[i] != ids[j]
    {
      assert runs[i] in runs && runs[j] in runs && Slots(runs)[i] != Slots(runs)[j];
    }
    forall id | id in Elems(ids)
      ensures id in Elems(TaskIds(m.tasks))
    {
      var i :| 0 <= i < |runs| && ids[i] == id;
      assert RunKnown(m, runs[i]);
      TaskListed(m.tasks, runs[i]);
    }
    DistinctCardinality(ids);
    DistinctCardinality(TaskIds(m.tasks));
    SubsetCardinality(Elems(ids), Elems(TaskIds(m.tasks)));
  }
}
