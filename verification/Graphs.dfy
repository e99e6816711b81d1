/** Directed graphs given by their edges: paths, cycles, reachability and topological order,
    and the depth-first cycle search that two validators of the repository share. */
module Graphs {
  import opened Collections

  type Edge = (string, string)

  ghost predicate IsPath(edges: set<Edge>, p: seq<string>) {
    |p| > 0 && forall i | 0 <= i < |p| - 1 :: (p[i], p[i + 1]) in edges
  }

  ghost predicate IsCycle(edges: set<Edge>, p: seq<string>) {
    IsPath(edges, p) && |p| > 1 && p[0] == p[|p| - 1]
  }

  ghost predicate Cyclic(edges: set<Edge>) {
    exists p :: IsCycle(edges, p)
  }

  /** b can be reached from a along the edges, in any number of steps, none included. */
  ghost predicate Reaches(edges: set<Edge>, a: string, b: string) {
    exists p :: IsPath(edges, p) && p[0] == a && p[|p| - 1] == b
  }

  /** Every edge leads to a node that stands earlier in the order. */
  ghost predicate Topological(edges: set<Edge>, order: seq<string>) {
    && Distinct(order)
    && forall e | e in edges :: Before(order, e.1, e.0)
  }

  ghost predicate Before(order: seq<string>, a: string, b: string) {
    exists i, j :: 0 <= i < j < |order| && order[i] == a && order[j] == b
  }

  /** A graph with a topological order has no cycle. */
  lemma TopologicalIsAcyclic(edges: set<Edge>, order: seq<string>)
    requires Topological(edges, order)
    ensures !Cyclic(edges)
  {
    forall p | IsCycle(edges, p)
      ensures false
    {
      PathDescends(edges, order, p);
    }
  }

  lemma {:induction false} PathDescends(edges: set<Edge>, order: seq<string>, p: seq<string>)
    requires Topological(edges, order) && IsPath(edges, p) && |p| > 1
    ensures Before(order, p[|p| - 1], p[0])
    decreases |p|
  {
    assert (p[0], p[1]) in edges;
    if |p| > 2 {
      PathDescends(edges, order, p[1..]);
      BeforeTransitive(order, p[|p| - 1], p[1], p[0]);
    }
  }

  lemma BeforeTransitive(order: seq<string>, a: string, b: string, c: string)
    requires Distinct(order) && Before(order, a, b) && Before(order, b, c)
    ensures Before(order, a, c)
  {
    var i, j :| 0 <= i < j < |order| && order[i] == a && order[j] == b;
    var k, l :| 0 <= k < l < |order| && order[k] == b && order[l] == c;
    assert j == k;
  }

  lemma JoinPaths(edges: set<Edge>, p: seq<string>, q: seq<string>)
    requires IsPath(edges, p) && IsPath(edges, q) && p[|p| - 1] == q[0]
    ensures IsPath(edges, p + q[1..])
    ensures (p + q[1..])[0] == p[0] && (p + q[1..])[|p| + |q| - 2] == q[|q| - 1]
  {
    var r := p + q[1..];
    forall i | 0 <= i < |r| - 1
      ensures (r[i], r[i + 1]) in edges
    {
      if i >= |p| - 1 {
        assert r[i] == q[i - (|p| - 1)] && r[i + 1] == q[i - (|p| - 1) + 1];
      }
    }
  }

  /** A path that meets one node twice contains a cycle. */
  lemma RepeatIsCycle(edges: set<Edge>, p: seq<string>, i: nat, j: nat)
    requires IsPath(edges, p) && i < j < |p| && p[i] == p[j]
    ensures Cyclic(edges)
  {
    var c := p[i..j + 1];
    forall k | 0 <= k < |c| - 1
      ensures (c[k], c[k + 1]) in edges
    {
      assert c[k] == p[i + k] && c[k + 1] == p[i + k + 1];
    }
    assert IsCycle(edges, c);
  }

  /** In an acyclic graph a predecessor of the first node prolongs a path. */
  lemma PathGrows(edges: set<Edge>, nodes: set<string>, p: seq<string>, m: string)
    requires IsPath(edges, p) && Elems(p) <= nodes && Distinct(p) && !Cyclic(edges)
    requires m in nodes && (m, p[0]) in edges
    ensures IsPath(edges, [m] + p) && Elems([m] + p) <= nodes && Distinct([m] + p)
  {
    var longer := [m] + p;
    assert IsPath(edges, longer);
    if m in p {
      var j :| 0 <= j < |p| && p[j] == m;
      RepeatIsCycle(edges, longer, 0, j + 1);
    }
    hide Cyclic;
  }

  /** Every node but c has a predecessor among the nodes. */
  ghost predicate Preceded(edges: set<Edge>, nodes: set<string>, c: string) {
    forall n | n in nodes && n != c :: exists m :: m in nodes && (m, n) in edges
  }

  lemma PredecessorOf(edges: set<Edge>, nodes: set<string>, c: string, n: string) returns (m: string)
    requires Preceded(edges, nodes, c) && n in nodes && n != c
    ensures m in nodes && (m, n) in edges
  {
    m :| m in nodes && (m, n) in edges;
  }

  /** In a finite acyclic graph in which every node but c has a predecessor, c reaches every node. */
  lemma {:induction false} PredecessorsLead(edges: set<Edge>, nodes: set<string>, c: string, p: seq<string>)
    requires Preceded(edges, nodes, c)
    requires IsPath(edges, p) && Elems(p) <= nodes && Distinct(p)
    requires !Cyclic(edges)
    ensures Reaches(edges, c, p[|p| - 1])
    decreases |nodes| - |p|
  {
    hide Preceded;
    hide Cyclic;
    hide Distinct;
    if p[0] != c {
      assert p[0] in Elems(p);
      var m := PredecessorOf(edges, nodes, c, p[0]);
      PathGrows(edges, nodes, p, m);
      hide Elems;
      DistinctCardinality([m] + p);
      SubsetCardinality(Elems([m] + p), nodes);
      PredecessorsLead(edges, nodes, c, [m] + p);
    }
  }

  /** A node reached from c in an acyclic graph has a predecessor, and none of them leads back to c. */
  lemma ReachedHasPredecessor(edges: set<Edge>, c: string, n: string)
    requires Reaches(edges, c, n) && n != c
    ensures exists m :: (m, n) in edges
  {
    var p :| IsPath(edges, p) && p[0] == c && p[|p| - 1] == n;
    assert (p[|p| - 2], p[|p| - 1]) in edges;
  }

  lemma ReachedLeadsNotBack(edges: set<Edge>, c: string, n: string)
    requires Reaches(edges, c, n) && (n, c) in edges
    ensures Cyclic(edges)
  {
    var p :| IsPath(edges, p) && p[0] == c && p[|p| - 1] == n;
    assert IsPath(edges, [n, c]);
    JoinPaths(edges, p, [n, c]);
    assert IsCycle(edges, p + [n, c][1..]);
  }

  // ----- Depth-first search -------------------------------------------------------------

  /** The recursive visit with its two mutable sets. Finished nodes are remembered, for the
      proof only, in the order in which they are left. */
  class DepthFirstSearch {
    const children: map<string, seq<string>>
    var visiting: set<string>
    var visited: set<string>
    ghost var finished: seq<string>

    ghost function Edges(): set<Edge> {
      set n, c | n in children.Keys && c in children[n] :: (n, c)
    }

    /** All children of a finished node were finished before it. */
    ghost predicate Valid()
      reads this
    {
      && (forall n, c | n in children.Keys && c in children[n] :: c in children.Keys)
      && visited <= children.Keys && visiting !! visited
      && Distinct(finished) && Elems(finished) == visited
      && (forall j | 0 <= j < |finished| :: forall c | c in children[finished[j]] :: c in finished[..j])
    }

    constructor (children: map<string, seq<string>>)
      requires forall n, c | n in children.Keys && c in children[n] :: c in children.Keys
      ensures Valid() && this.children == children
      ensures visiting == {} == visited
    {
      this.children := children;
      visiting, visited := {}, {};
      finished := [];
    }

    /** Visits a node whose ancestors are on the stack. */
    method Visit(node: string, ghost stack: seq<string>) returns (cyclic: bool)
      requires Valid() && node in children.Keys
      requires Elems(stack) == visiting <= children.Keys && IsPath(Edges(), stack + [node])
      modifies this
      ensures cyclic ==> Cyclic(Edges())
      ensures !cyclic ==> Valid() && visiting == old(visiting) && old(visited) <= visited && node in visited
      decreases children.Keys - visiting
    {
      ghost var edges := Edges();
      if node in visiting {
        ghost var i :| 0 <= i < |stack| && stack[i] == node;
        RepeatIsCycle(edges, stack + [node], i, |stack|);
        return true;
      }
      if node in visited {
        return false;
      }
      visiting := visiting + {node};
      ghost var path := stack + [node];
      assert Elems(path) == visiting;
      for k := 0 to |children[node]|
        invariant Valid()
        invariant visiting == old(visiting) + {node} && old(visited) <= visited
        invariant forall c | c in children[node][..k] :: c in visited
      {
        var child := children[node][k];
        assert (node, child) in edges;
        assert IsPath(edges, path + [child]);
        var found := Visit(child, path);
        if found {
          return true;
        }
      }
      visiting := visiting - {node};
      assert visiting == old(visiting);
      Finish(node);
      return false;
    }

    /** A node is left once all its children have been. */
    method Finish(node: string)
      requires Valid() && node in children.Keys && node !in visiting && node !in visited
      requires forall c | c in children[node] :: c in visited
      modifies this
      ensures Valid() && visiting == old(visiting) && visited == old(visited) + {node}
    {
      ghost var before := finished;
      visited := visited + {node};
      finished := finished + [node];
      assert node !in before by {
        assert forall x | x in before :: x in Elems(before);
      }
      assert Elems(finished) == Elems(before) + {node};
      forall j | 0 <= j < |finished|
        ensures forall c | c in children[finished[j]] :: c in finished[..j]
      {
        if j < |before| {
          assert finished[..j] == before[..j];
        } else {
          assert finished[..j] == before;
          assert forall c | c in children[node] :: c in Elems(before);
        }
      }
    }

    /** Visits every node, in any order. */
    method Search() returns (cyclic: bool)
      requires Valid() && visiting == {}
      modifies this
      ensures cyclic <==> Cyclic(Edges())
      ensures !cyclic ==> Topological(Edges(), finished)
    {
      var todo := children.Keys;
      while todo != {}
        invariant Valid() && visiting == {}
        invariant todo <= children.Keys <= todo + visited
        decreases todo
      {
        var node :| node in todo;
        todo := todo - {node};
        var found := Visit(node, []);
        if found {
          return true;
        }
      }
      FinishedIsTopological();
      TopologicalIsAcyclic(Edges(), finished);
      return false;
    }

    lemma FinishedIsTopological()
      requires Valid() && visited == children.Keys
      ensures Topological(Edges(), finished)
    {
      forall e | e in Edges()
        ensures Before(finished, e.1, e.0)
      {
        assert e.0 in Elems(finished);
        var j :| 0 <= j < |finished| && finished[j] == e.0;
        assert e.1 in finished[..j];
      }
    }
  }
}
