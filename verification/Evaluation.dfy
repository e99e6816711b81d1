/** Scoring imported evaluation runs and reviews: pairing, metrics and the report over them. */
module Evaluation {
  import opened Collections

  datatype HarnessMode = WithHarness | WithoutHarness

  datatype RunStatus = RunCompleted | RunFailed | RunCanceled

  datatype Task = Task(taskId: string, questionHash: string)

  /** The manifest; its own validator makes task ids unique and asks for at least one task. */
  datatype Manifest = Manifest(hash: string, tasks: seq<Task>)
  {
    ghost predicate Valid() {
      tasks != [] && Distinct(TaskIds(tasks))
    }
  }

  datatype EvalRun = EvalRun(
    runId: string,
    manifestHash: string,
    taskId: string,
    questionHash: string,
    model: string,
    config: string,
    mode: HarnessMode,
    status: RunStatus,
    response: Option<string>)

  datatype Provenance = Provenance(externalImport: bool, confirmed: bool, sourceRef: Option<string>, reviewer: Option<string>)
  {
    predicate Accepted() {
      && externalImport && confirmed
      && sourceRef.Some? && !Blank(sourceRef.value) && reviewer.Some? && !Blank(reviewer.value)
    }
  }

  datatype Metric = CitationErrors | MaterialOmissions | FalseAccepts | FalseRefusals | ReviewTimeSeconds

  datatype Review = Review(
    reviewId: string,
    manifestHash: string,
    taskId: string,
    runId: string,
    runDigest: string,
    mode: HarnessMode,
    provenance: Provenance,
    citationErrors: Option<nat>,
    materialOmissions: Option<nat>,
    falseAccepts: Option<nat>,
    falseRefusals: Option<nat>,
    reviewTime: Option<real>)
  {
    predicate Valid() {
      reviewTime.Some? ==> reviewTime.value >= 0.0
    }

    function Value(metric: Metric): (r: Option<real>)
      ensures Valid() && r.Some? ==> r.value >= 0.0
    {
      match metric
      case CitationErrors => AsReal(citationErrors)
      case MaterialOmissions => AsReal(materialOmissions)
      case FalseAccepts => AsReal(falseAccepts)
      case FalseRefusals => AsReal(falseRefusals)
      case ReviewTimeSeconds => reviewTime
    }
  }

  function AsReal(n: Option<nat>): (r: Option<real>)
    ensures r.Some? ==> r.value >= 0.0
  {
    if n.Some? then Some(n.value as real) else None
  }

  /** The digests a run is known by: of its whole content, and of its model configuration. */
  datatype Digests = Digests(content: EvalRun -> string, config: string -> string)

  function TaskIds(tasks: seq<Task>): seq<string> {
    seq(|tasks|, i requires 0 <= i < |tasks| => tasks[i].taskId)
  }

  function RunIds(runs: seq<EvalRun>): seq<string> {
    seq(|runs|, i requires 0 <= i < |runs| => runs[i].runId)
  }

  function Slots(runs: seq<EvalRun>): seq<(string, HarnessMode)> {
    seq(|runs|, i requires 0 <= i < |runs| => (runs[i].taskId, runs[i].mode))
  }

  // ----- Validation of runs -------------------------------------------------------------

  /** The run answers a task of this manifest, with the question as it stands there. */
  predicate RunKnown(m: Manifest, run: EvalRun) {
    run.manifestHash == m.hash && exists t | t in m.tasks :: t.taskId == run.taskId && t.questionHash == run.questionHash
  }

  ghost predicate RunsValid(m: Manifest, runs: seq<EvalRun>) {
    Distinct(RunIds(runs)) && Distinct(Slots(runs)) && forall r | r in runs :: RunKnown(m, r)
  }

  function TaskMap(tasks: seq<Task>): map<string, Task> {
    if tasks == [] then map[] else TaskMap(tasks[..|tasks| - 1])[tasks[|tasks| - 1].taskId := tasks[|tasks| - 1]]
  }

  lemma {:induction false} TaskMapIs(tasks: seq<Task>)
    requires Distinct(TaskIds(tasks))
    ensures forall t | t in tasks :: t.taskId in TaskMap(tasks) && TaskMap(tasks)[t.taskId] == t
    ensures forall id | id in TaskMap(tasks) :: TaskMap(tasks)[id] in tasks && TaskMap(tasks)[id].taskId == id
  {
    if tasks != [] {
      var rest, last := tasks[..|tasks| - 1], tasks[|tasks| - 1];
      assert TaskIds(rest) == TaskIds(tasks)[..|rest|];
      TaskMapIs(rest);
      assert tasks == rest + [last];
      forall t | t in rest
        ensures t.taskId != last.taskId
      {
        var i :| 0 <= i < |rest| && rest[i] == t;
        assert TaskIds(tasks)[i] != TaskIds(tasks)[|rest|];
      }
    }
  }

  lemma DistinctPrefix<T>(s: seq<T>, i: nat)
    requires i <= |s| && Distinct(s)
    ensures Distinct(s[..i])
  {
  }

  /** Rejects the run list at the first run that repeats an id or slot or does not fit the manifest. */
  method ValidateRuns(m: Manifest, runs: seq<EvalRun>) returns (ok: bool)
    requires m.Valid()
    ensures ok <==> RunsValid(m, runs)
  {
    var tasks := TaskMap(m.tasks);
    TaskMapIs(m.tasks);
    hide TaskMap;
    hide Distinct;
    var seenIds: set<string>, seenSlots: set<(string, HarnessMode)> := {}, {};
    assert RunsValid(m, []) by {
      NoRuns(m);
    }
    for i := 0 to |runs|
      invariant RunsValid(m, runs[..i])
      invariant seenIds == Elems(RunIds(runs[..i])) && seenSlots == Elems(Slots(runs[..i]))
    {
      var run := runs[i];
      RunsAppend(m, runs[..i], run);
      assert runs[..i + 1] == runs[..i] + [run];
      RunsPrefix(m, runs, i + 1);
      var bad :=
        || run.runId in seenIds || run.manifestHash != m.hash || run.taskId !in tasks
        || run.questionHash != tasks[run.taskId].questionHash || (run.taskId, run.mode) in seenSlots;
      if bad {
        return false;
      }
      seenIds := seenIds + {run.runId};
      seenSlots := seenSlots + {(run.taskId, run.mode)};
    }
    assert runs[..|runs|] == runs;
    ok := true;
  }

  lemma NoRuns(m: Manifest)
    ensures RunsValid(m, [])
  {
  }

  lemma RunsAppend(m: Manifest, runs: seq<EvalRun>, run: EvalRun)
    ensures RunsValid(m, runs + [run]) <==>
              && RunsValid(m, runs) && RunKnown(m, run)
              && run.runId !in Elems(RunIds(runs)) && (run.taskId, run.mode) !in Elems(Slots(runs))
    ensures Elems(RunIds(runs + [run])) == Elems(RunIds(runs)) + {run.runId}
    ensures Elems(Slots(runs + [run])) == Elems(Slots(runs)) + {(run.taskId, run.mode)}
  {
    assert RunIds(runs + [run]) == RunIds(runs) + [run.runId];
    assert Slots(runs + [run]) == Slots(runs) + [(run.taskId, run.mode)];
    DistinctAppend(RunIds(runs), run.runId);
    DistinctAppend(Slots(runs), (run.taskId, run.mode));
    ElemsAppend(RunIds(runs), run.runId);
    ElemsAppend(Slots(runs), (run.taskId, run.mode));
    hide RunKnown;
    hide Distinct;
    hide RunIds;
    hide Slots;
    assert run in runs + [run];
    assert forall r | r in runs :: r in runs + [run];
  }

  lemma RunsPrefix(m: Manifest, runs: seq<EvalRun>, i: nat)
    requires i <= |runs|
    ensures RunsValid(m, runs) ==> RunsValid(m, runs[..i])
  {
    hide RunKnown;
    if RunsValid(m, runs) {
      assert RunIds(runs[..i]) == RunIds(runs)[..i];
      assert Slots(runs[..i]) == Slots(runs)[..i];
      DistinctPrefix(RunIds(runs), i);
      DistinctPrefix(Slots(runs), i);
    }
  }

  // ----- Runs by slot -------------------------------------------------------------------

  function BySlot(runs: seq<EvalRun>): map<(string, HarnessMode), EvalRun> {
    if runs == [] then map[]
    else
      var last := runs[|runs| - 1];
      BySlot(runs[..|runs| - 1])[(last.taskId, last.mode) := last]
  }

  function InSlot(runs: seq<EvalRun>, taskId: string, mode: HarnessMode): Option<EvalRun> {
    if (taskId, mode) in BySlot(runs) then Some(BySlot(runs)[(taskId, mode)]) else None
  }

  lemma {:induction false} BySlotIs(runs: seq<EvalRun>)
    requires Distinct(Slots(runs))
    ensures forall r | r in runs :: (r.taskId, r.mode) in BySlot(runs) && BySlot(runs)[(r.taskId, r.mode)] == r
    ensures forall slot | slot in BySlot(runs) :: BySlot(runs)[slot] in runs && (BySlot(runs)[slot].taskId, BySlot(runs)[slot].mode) == slot
  {
    if runs != [] {
      var rest, last := runs[..|runs| - 1], runs[|runs| - 1];
      assert runs == rest + [last];
      assert Slots(rest) == Slots(runs)[..|rest|];
      BySlotIs(rest);
      forall r | r in rest
        ensures (r.taskId, r.mode) != (last.taskId, last.mode)
      {
        var i :| 0 <= i < |rest| && rest[i] == r;
        assert Slots(runs)[i] != Slots(runs)[|rest|];
      }
    }
  }

  // ----- Pairing ------------------------------------------------------------------------

  datatype PairStatus = Paired | MissingWith | MissingWithout | ModelMismatch | ConfigMismatch | FailedOrCanceled

  datatype RunPair = RunPair(
    taskId: string,
    manifestHash: string,
    questionHash: string,
    model: string,
    config: string,
    withRunId: string,
    withoutRunId: string)

  datatype Rejection = Rejection(taskId: string, status: PairStatus, withRunId: Option<string>, withoutRunId: Option<string>)

  datatype Pairing = Pairing(pairs: seq<RunPair>, rejections: seq<Rejection>)

  function IdOf(run: Option<EvalRun>): Option<string> {
    if run.Some? then Some(run.value.runId) else None
  }

  function StatusFor(d: Digests, withRun: Option<EvalRun>, withoutRun: Option<EvalRun>): PairStatus {
    if withRun.None? then MissingWith
    else if withoutRun.None? then MissingWithout
    else if !withRun.value.status.RunCompleted? || !withoutRun.value.status.RunCompleted? then FailedOrCanceled
    else if withRun.value.model != withoutRun.value.model then ModelMismatch
    else if d.config(withRun.value.config) != d.config(withoutRun.value.config) then ConfigMismatch
    else Paired
  }

  function TaskStatus(d: Digests, runs: seq<EvalRun>, taskId: string): PairStatus {
    StatusFor(d, InSlot(runs, taskId, WithHarness), InSlot(runs, taskId, WithoutHarness))
  }

  function PairOf(withRun: EvalRun, withoutRun: EvalRun, taskId: string): RunPair {
    RunPair(taskId, withRun.manifestHash, withRun.questionHash, withRun.model, withRun.config, withRun.runId, withoutRun.runId)
  }

  /** The pairs of the tasks whose two runs match, in task order. */
  function PairsOf(d: Digests, tasks: seq<Task>, runs: seq<EvalRun>): seq<RunPair> {
    if tasks == [] then []
    else
      var id := tasks[|tasks| - 1].taskId;
      PairsOf(d, tasks[..|tasks| - 1], runs)
      + if TaskStatus(d, runs, id).Paired? then
          [PairOf(InSlot(runs, id, WithHarness).value, InSlot(runs, id, WithoutHarness).value, id)]
        else []
  }

  /** The diagnostics of all other tasks, in task order. */
  function RejectionsOf(d: Digests, tasks: seq<Task>, runs: seq<EvalRun>): seq<Rejection> {
    if tasks == [] then []
    else
      var id := tasks[|tasks| - 1].taskId;
      RejectionsOf(d, tasks[..|tasks| - 1], runs)
      + if TaskStatus(d, runs, id).Paired? then []
        else [Rejection(id, TaskStatus(d, runs, id), IdOf(InSlot(runs, id, WithHarness)), IdOf(InSlot(runs, id, WithoutHarness)))]
  }

  method PairRuns(d: Digests, m: Manifest, runs: seq<EvalRun>) returns (r: Result<Pairing>)
    requires m.Valid()
    ensures r.Ok? <==> RunsValid(m, runs)
    ensures r.Ok? ==> r.value.pairs == PairsOf(d, m.tasks, runs) && r.value.rejections == RejectionsOf(d, m.tasks, runs)
  {
    var ok := ValidateRuns(m, runs);
    if !ok {
      return Err("RUNS_INVALID");
    }
    hide RunsValid;
    var bySlot := BySlot(runs);
    hide BySlot;
    var pairs, rejections := [], [];
    for i := 0 to |m.tasks|
      invariant pairs == PairsOf(d, m.tasks[..i], runs) && rejections == RejectionsOf(d, m.tasks[..i], runs)
    {
      var id := m.tasks[i].taskId;
      assert m.tasks[..i + 1][..i] == m.tasks[..i];
      var withRun := if (id, WithHarness) in bySlot then Some(bySlot[(id, WithHarness)]) else None;
      var withoutRun := if (id, WithoutHarness) in bySlot then Some(bySlot[(id, WithoutHarness)]) else None;
      if withRun.None? {
        rejections := rejections + [Rejection(id, MissingWith, None, IdOf(withoutRun))];
      } else if withoutRun.None? {
        rejections := rejections + [Rejection(id, MissingWithout, IdOf(withRun), None)];
      } else if !withRun.value.status.RunCompleted? || !withoutRun.value.status.RunCompleted? {
        rejections := rejections + [Rejection(id, FailedOrCanceled, IdOf(withRun), IdOf(withoutRun))];
      } else if withRun.value.model != withoutRun.value.model {
        rejections := rejections + [Rejection(id, ModelMismatch, IdOf(withRun), IdOf(withoutRun))];
      } else if d.config(withRun.value.config) != d.config(withoutRun.value.config) {
        rejections := rejections + [Rejection(id, ConfigMismatch, IdOf(withRun), IdOf(withoutRun))];
      } else {
        pairs := pairs + [PairOf(withRun.value, withoutRun.value, id)];
      }
    }
    assert m.tasks[..|m.tasks|] == m.tasks;
    r := Ok(Pairing(pairs, rejections));
  }
}
