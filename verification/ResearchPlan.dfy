/** Registration of an external research plan: the checks on its issue hierarchy and on the
    authority locators of its core issues. */
module ResearchPlan {
  import opened Collections
  import opened Graphs

  datatype Issue = Issue(issueId: string, parent: Option<string>, core: bool, requiresConclusion: bool)

  datatype Locator = Locator(locatorId: string, issueIds: seq<string>)

  datatype Proposal = Proposal(issues: seq<Issue>, locators: seq<Locator>)

  datatype Problem =
    | DuplicateIssue
    | DuplicateLocator
    | UnknownParent
    | OwnParent
    | CyclicHierarchy
    | UnknownLocatorIssue
    | NoCoreIssue
    | UnlocatedCoreIssue

  function IssueIds(issues: seq<Issue>): seq<string> {
    seq(|issues|, i requires 0 <= i < |issues| => issues[i].issueId)
  }

  function LocatorIds(locators: seq<Locator>): seq<string> {
    seq(|locators|, i requires 0 <= i < |locators| => locators[i].locatorId)
  }

  // ----- What the validator promises ----------------------------------------------------

  /** The hierarchy: an edge from each issue to its parent. */
  function ParentEdges(issues: seq<Issue>): set<Edge> {
    set i | i in issues && i.parent.Some? :: (i.issueId, i.parent.value)
  }

  ghost predicate ParentsKnown(issues: seq<Issue>) {
    forall i | i in issues && i.parent.Some? :: i.parent.value in IssueIds(issues)
  }

  ghost predicate HasOwnParent(issues: seq<Issue>) {
    exists i :: i in issues && i.parent == Some(i.issueId)
  }

  predicate Required(i: Issue) {
    i.core && i.requiresConclusion
  }

  ghost predicate Located(p: Proposal, issueId: string) {
    exists l :: l in p.locators && issueId in l.issueIds
  }

  /** A plan is well formed when its identifiers are unique, its hierarchy is a forest, its
      locators name known issues, and each core issue that needs a conclusion is located. */
  ghost predicate WellFormed(p: Proposal) {
    && Distinct(IssueIds(p.issues)) && Distinct(LocatorIds(p.locators))
    && ParentsKnown(p.issues)
    && !Cyclic(ParentEdges(p.issues))
    && (forall l, id | l in p.locators && id in l.issueIds :: id in IssueIds(p.issues))
    && (exists i :: i in p.issues && i.core && i.requiresConclusion)
    && (forall i | i in p.issues && i.core && i.requiresConclusion :: Located(p, i.issueId))
  }

  /** What each rejection says about the plan. */
  ghost predicate Explains(p: Proposal, problem: Problem) {
    match problem
    case DuplicateIssue => !Distinct(IssueIds(p.issues))
    case DuplicateLocator => !Distinct(LocatorIds(p.locators))
    case UnknownParent => !ParentsKnown(p.issues)
    case OwnParent => HasOwnParent(p.issues)
    case CyclicHierarchy => ParentsKnown(p.issues) && !HasOwnParent(p.issues) && Cyclic(ParentEdges(p.issues))
    case UnknownLocatorIssue => exists l, id :: l in p.locators && id in l.issueIds && id !in IssueIds(p.issues)
    case NoCoreIssue => forall i | i in p.issues :: !i.core || !i.requiresConclusion
    case UnlocatedCoreIssue => exists i :: i in p.issues && i.core && i.requiresConclusion && !Located(p, i.issueId)
  }

  // ----- The parent walk ----------------------------------------------------------------

  function MapEdges(parents: map<string, string>): set<Edge> {
    set k | k in parents :: (k, parents[k])
  }

  /** A walk along parents that starts on a cycle never leaves it. */
  lemma {:induction false} WalkStays(parents: map<string, string>, cycle: seq<string>, p: seq<string>)
    requires IsCycle(MapEdges(parents), cycle) && IsPath(MapEdges(parents), p) && p[0] in cycle
    ensures p[|p| - 1] in cycle
    decreases |p|
  {
    if |p| > 1 {
      assert (p[0], p[1]) in MapEdges(parents);
      var j :| 0 <= j < |cycle| && cycle[j] == p[0];
      var k := if j == |cycle| - 1 then 0 else j;
      assert (cycle[k], cycle[k + 1]) in MapEdges(parents);
      assert p[1] == parents[p[0]] == cycle[k + 1];
      WalkStays(parents, cycle, p[1..]);
    }
  }

  lemma CycleNodesHaveParents(parents: map<string, string>, cycle: seq<string>, n: string)
    requires IsCycle(MapEdges(parents), cycle) && n in cycle
    ensures n in parents
  {
    var j :| 0 <= j < |cycle| && cycle[j] == n;
    var k := if j == |cycle| - 1 then 0 else j;
    assert (cycle[k], cycle[k + 1]) in MapEdges(parents);
  }

  /** Follows the parents of one issue. Meeting an issue twice proves a cycle; leaving the map
      proves that this issue is on none. */
  method Walk(parents: map<string, string>, start: string) returns (repeats: bool)
    requires start in parents
    ensures repeats ==> Cyclic(MapEdges(parents))
    ensures !repeats ==> forall cycle | IsCycle(MapEdges(parents), cycle) :: start !in cycle
  {
    var visited: set<string> := {};
    var current := start;
    ghost var p := [start];
    while current in parents
      invariant IsPath(MapEdges(parents), p) && p[0] == start && p[|p| - 1] == current
      invariant visited == Elems(p[..|p| - 1]) <= parents.Keys
      decreases parents.Keys - visited
    {
      if current in visited {
        ghost var i :| 0 <= i < |p| - 1 && p[i] == current;
        RepeatIsCycle(MapEdges(parents), p, i, |p| - 1);
        return true;
      }
      visited := visited + {current};
      ghost var longer := p + [parents[current]];
      assert longer[..|longer| - 1] == p == p[..|p| - 1] + [current];
      assert (current, parents[current]) in MapEdges(parents);
      p := longer;
      current := parents[current];
    }
    forall cycle | IsCycle(MapEdges(parents), cycle)
      ensures start !in cycle
    {
      if start in cycle {
        WalkStays(parents, cycle, p);
        CycleNodesHaveParents(parents, cycle, current);
      }
    }
    return false;
  }

  /** Walks from every issue that has a parent. */
  method HasCyclicParents(parents: map<string, string>) returns (cyclic: bool)
    ensures cyclic <==> Cyclic(MapEdges(parents))
  {
    var todo := parents.Keys;
    while todo != {}
      invariant todo <= parents.Keys
      invariant forall s, cycle | s in parents.Keys - todo && IsCycle(MapEdges(parents), cycle) :: s !in cycle
      decreases todo
    {
      var start :| start in todo;
      todo := todo - {start};
      var repeats := Walk(parents, start);
      if repeats {
        return true;
      }
    }
    if Cyclic(MapEdges(parents)) {
      ghost var cycle :| IsCycle(MapEdges(parents), cycle);
      CycleNodesHaveParents(parents, cycle, cycle[0]);
    }
    return false;
  }

  // ----- The validator ------------------------------------------------------------------

  /** Fills the parent map, stopping at the first issue whose parent is unknown or itself. */
  method ReadParents(issues: seq<Issue>) returns (parents: map<string, string>, problem: Option<Problem>)
    requires Distinct(IssueIds(issues))
    ensures problem.None? <==> ParentsKnown(issues) && !HasOwnParent(issues)
    ensures problem.None? ==> MapEdges(parents) == ParentEdges(issues)
    ensures problem.Some? ==> (problem.value.UnknownParent? && !ParentsKnown(issues))
                              || (problem.value.OwnParent? && HasOwnParent(issues))
  {
    var known := Elems(IssueIds(issues));
    parents := map[];
    for k := 0 to |issues|
      invariant forall i | i in issues[..k] && i.parent.Some? :: i.parent.value in known && i.parent.value != i.issueId
      invariant forall i | i in issues[..k] && i.parent.Some? :: i.issueId in parents && parents[i.issueId] == i.parent.value
      invariant forall id | id in parents :: exists i :: i in issues[..k] && i.issueId == id && i.parent == Some(parents[id])
    {
      var issue := issues[k];
      forall i | i in issues[..k]
        ensures i.issueId != issue.issueId
      {
        var j :| 0 <= j < k && issues[j] == i;
        assert IssueIds(issues)[j] != IssueIds(issues)[k];
      }
      if issue.parent.Some? {
        if issue.parent.value !in known {
          return parents, Some(UnknownParent);
        }
        if issue.parent.value == issue.issueId {
          return parents, Some(OwnParent);
        }
        ghost var before := parents;
        parents := parents[issue.issueId := issue.parent.value];
        forall id | id in parents
          ensures exists i :: i in issues[..k + 1] && i.issueId == id && i.parent == Some(parents[id])
        {
          if id == issue.issueId {
            assert issue in issues[..k + 1];
          } else {
            var i :| i in issues[..k] && i.issueId == id && i.parent == Some(before[id]);
            assert i in issues[..k + 1];
          }
        }
      }
    }
    assert issues[..|issues|] == issues;
    problem := None;
  }

  lemma OwnParentIsCycle(issues: seq<Issue>, i: Issue)
    requires i in issues && i.parent == Some(i.issueId)
    ensures Cyclic(ParentEdges(issues))
  {
    assert (i.issueId, i.issueId) in ParentEdges(issues);
    assert IsCycle(ParentEdges(issues), [i.issueId, i.issueId]);
  }

  /** A plan is accepted exactly when it is well formed. */
  method ValidatePlan(p: Proposal) returns (problem: Option<Problem>)
    ensures problem.None? <==> WellFormed(p)
    ensures problem.Some? ==> Explains(p, problem.value)
  {
    var ids := IssueIds(p.issues);
    if !AllUnique(ids) {
      return Some(DuplicateIssue);
    }
    if !AllUnique(LocatorIds(p.locators)) {
      return Some(DuplicateLocator);
    }
    var parents, found := ReadParents(p.issues);
    if found.Some? {
      if ParentsKnown(p.issues) {
        ghost var i :| i in p.issues && i.parent == Some(i.issueId);
        OwnParentIsCycle(p.issues, i);
      }
      return found;
    }
    var cyclic := HasCyclicParents(parents);
    if cyclic {
      return Some(CyclicHierarchy);
    }
    var located: set<string> := {};
    for k := 0 to |p.locators|
      invariant forall l, id | l in p.locators[..k] && id in l.issueIds :: id in ids
      invariant forall id :: id in located <==> exists l :: l in p.locators[..k] && id in l.issueIds
    {
      var locator := p.locators[k];
      assert p.locators[..k + 1] == p.locators[..k] + [locator];
      if !(Elems(locator.issueIds) <= Elems(ids)) {
        var id :| id in Elems(locator.issueIds) && id !in Elems(ids);
        assert locator in p.locators && id in locator.issueIds;
        return Some(UnknownLocatorIssue);
      }
      located := located + Elems(locator.issueIds);
      forall l, id | l in p.locators[..k + 1] && id in l.issueIds
        ensures id in ids
      {
        assert l == locator ==> id in Elems(ids);
      }
    }
    assert p.locators[..|p.locators|] == p.locators;
    var core := set i | i in p.issues && Required(i) :: i.issueId;
    if core == {} {
      assert forall i | i in p.issues && Required(i) :: i.issueId in core;
      return Some(NoCoreIssue);
    }
    var c :| c in core;
    if !(core <= located) {
      var id :| id in core && id !in located;
      return Some(UnlocatedCoreIssue);
    }
    forall i | i in p.issues && Required(i)
      ensures Located(p, i.issueId)
    {
      assert i.issueId in core;
    }
    problem := None;
  }

  // ----- What acceptance means ----------------------------------------------------------

  /** In an accepted plan every issue descends from a root: following parents ends at an issue
      that has none. */
  lemma AcceptedPlanIsForest(p: Proposal, i: Issue)
    requires WellFormed(p) && i in p.issues
    ensures exists root :: root in p.issues && root.parent.None? && Reaches(ParentEdges(p.issues), i.issueId, root.issueId)
  {
    var ids := Elems(IssueIds(p.issues));
    assert IssueIds(p.issues)[IndexOf(p.issues, i)] in ids;
    assert Elems([i.issueId]) == {i.issueId};
    Climb(p, ids, [i.issueId]);
  }

  ghost function IndexOf(issues: seq<Issue>, i: Issue): (k: nat)
    requires i in issues
    ensures k < |issues| && issues[k] == i
  {
    var k :| 0 <= k < |issues| && issues[k] == i;
    k
  }

  lemma {:induction false} Climb(p: Proposal, ids: set<string>, path: seq<string>)
    requires WellFormed(p) && ids == Elems(IssueIds(p.issues))
    requires IsPath(ParentEdges(p.issues), path) && Elems(path) <= ids && Distinct(path)
    ensures exists root :: root in p.issues && root.parent.None? && Reaches(ParentEdges(p.issues), path[0], root.issueId)
    decreases |ids| - |path|
  {
    DistinctCardinality(path);
    SubsetCardinality(Elems(path), ids);
    var last := path[|path| - 1];
    assert last in ids;
    var k :| 0 <= k < |p.issues| && IssueIds(p.issues)[k] == last;
    var issue := p.issues[k];
    if issue.parent.Some? {
      var parent, longer := issue.parent.value, path + [issue.parent.value];
      assert (last, parent) in ParentEdges(p.issues);
      assert IsPath(ParentEdges(p.issues), longer);
      if parent in path {
        var j :| 0 <= j < |path| && path[j] == parent;
        RepeatIsCycle(ParentEdges(p.issues), longer, j, |path|);
      } else {
        assert parent in ids;
        assert Elems(longer) == Elems(path) + {parent};
        DistinctCardinality(longer);
        SubsetCardinality(Elems(longer), ids);
        Climb(p, ids, longer);
      }
    }
  }
}
