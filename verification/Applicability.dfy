/** The applicability resolver: which of the requested sources controls on a given date. */
module Applicability {
  import opened Collections
  import opened Graphs

  const MAX_FINDINGS := 256

  datatype Trust = OfficialVerified | EvidenceEligible | OtherTrust

  datatype Source = Source(
    sourceId: string,
    scopeKey: Option<string>,
    effectiveFrom: Option<int>,
    effectiveUntil: Option<int>,
    repealedOn: Option<int>,
    specializes: seq<string>,
    superior: seq<string>,
    supersedes: seq<string>,
    serverOwned: bool,
    trust: Trust)
  {
    /** What the record's own validator establishes about its relations. */
    ghost predicate Valid() {
      && Distinct(specializes) && Distinct(superior) && Distinct(supersedes)
      && sourceId !in specializes && sourceId !in superior && sourceId !in supersedes
    }

    predicate Trusted() {
      !trust.OtherTrust?
    }
  }

  datatype Request = Request(sourceIds: seq<string>, asOf: int, scopeKey: Option<string>) {
    ghost predicate Valid() {
      sourceIds != [] && Distinct(sourceIds)
    }
  }

  datatype TemporalStatus = Applies | NotYetEffective | ExpiredOrRepealed | Undetermined

  datatype Assessment = Assessment(sourceId: string, status: TemporalStatus, active: bool, reasons: seq<string>)

  datatype RelationKind = SpecialToGeneral | SuperiorToInferior | TemporalSuccessor

  datatype Relation = Relation(kind: RelationKind, stronger: string, weaker: string)

  datatype Finding = Finding(relation: Relation, active: bool)

  datatype Status = Applicable | NotApplicable | Indeterminate | Conflicting | HistoricalVersionUnavailable

  datatype Resolution = Resolution(
    resolved: bool,
    status: Status,
    asOf: int,
    considered: seq<string>,
    selected: seq<string>,
    controlling: Option<string>,
    assessments: seq<Assessment>,
    findings: seq<Finding>,
    reasons: seq<string>,
    limitations: seq<string>)

  /** Building the resolution record fails when it would hold more findings than it may. */
  datatype Outcome = Returned(resolution: Resolution) | Rejected

  datatype Catalog = Catalog(sources: map<string, Source>, serverIds: Option<seq<string>>) {
    ghost predicate Valid() {
      forall id | id in sources :: sources[id].sourceId == id && sources[id].Valid()
    }
  }

  // ----- Binding and trust gates --------------------------------------------------------

  predicate IsAlphanumeric(c: char) {
    'A' <= c <= 'Z' || 'a' <= c <= 'z' || '0' <= c <= '9'
  }

  predicate IsIdentifier(s: string) {
    && 1 <= |s| <= 80
    && IsAlphanumeric(s[0])
    && forall c | c in s :: IsAlphanumeric(c) || c == '.' || c == '_' || c == ':' || c == '-'
  }

  predicate InvalidBinding(serverIds: seq<string>) {
    serverIds == [] || |serverIds| != |Elems(serverIds)| || exists id | id in serverIds :: !IsIdentifier(id)
  }

  /** The reason and the limitations with which a request is turned away, if it is. */
  function Gate(cat: Catalog, request: Request): Option<(string, seq<string>)> {
    var ids := Elems(request.sourceIds);
    if cat.serverIds.None? then
      Some(("APPLICABILITY_SERVER_CATALOG_BINDING_REQUIRED", ["APPLICABILITY_SERVER_CATALOG_BINDING_REQUIRED"]))
    else if InvalidBinding(cat.serverIds.value) then
      Some(("APPLICABILITY_SERVER_CATALOG_BINDING_INVALID", []))
    else if exists id | id in ids :: id !in cat.serverIds.value then
      Some(("APPLICABILITY_SOURCE_NOT_SERVER_BOUND", ["APPLICABILITY_SERVER_CATALOG_SCOPE_LIMITED"]))
    else if exists id | id in ids :: id !in cat.sources then
      Some(("APPLICABILITY_SOURCE_NOT_FOUND", ["APPLICABILITY_SERVER_CATALOG_INCOMPLETE"]))
    else if exists id | id in ids :: !cat.sources[id].serverOwned then
      Some(("APPLICABILITY_SOURCE_NOT_SERVER_OWNED", []))
    else if exists id | id in ids :: !cat.sources[id].Trusted() then
      Some(("APPLICABILITY_SOURCE_NOT_VERIFIED", []))
    else None
  }

  // ----- Time and scope -----------------------------------------------------------------

  function TemporalAssessment(s: Source, asOf: int): Assessment {
    if s.effectiveFrom.Some? && asOf < s.effectiveFrom.value then
      Assessment(s.sourceId, NotYetEffective, false, ["APPLICABILITY_SOURCE_NOT_YET_EFFECTIVE"])
    else if (s.effectiveUntil.Some? && asOf > s.effectiveUntil.value) || (s.repealedOn.Some? && asOf >= s.repealedOn.value) then
      Assessment(s.sourceId, ExpiredOrRepealed, false, ["APPLICABILITY_SOURCE_EXPIRED_OR_REPEALED"])
    else Assessment(s.sourceId, Applies, true, [])
  }

  function Assess(s: Source, request: Request): Assessment {
    if request.scopeKey.Some? && s.scopeKey != request.scopeKey then
      Assessment(s.sourceId, Undetermined, false, ["APPLICABILITY_SCOPE_MISMATCH"])
    else TemporalAssessment(s, request.asOf)
  }

  ghost predicate Known(cat: Catalog, request: Request) {
    forall id | id in request.sourceIds :: id in cat.sources
  }

  function Assessments(cat: Catalog, request: Request): seq<Assessment>
    requires Known(cat, request)
  {
    seq(|request.sourceIds|, i requires 0 <= i < |request.sourceIds| => Assess(cat.sources[request.sourceIds[i]], request))
  }

  function ActiveIds(cat: Catalog, request: Request): set<string>
    requires Known(cat, request)
  {
    set id | id in request.sourceIds && Assess(cat.sources[id], request).active
  }

  // ----- Relations ----------------------------------------------------------------------

  function Tagged(kind: RelationKind, stronger: string, targets: seq<string>): seq<Relation> {
    if targets == [] then []
    else Tagged(kind, stronger, targets[..|targets| - 1]) + [Relation(kind, stronger, targets[|targets| - 1])]
  }

  function RelationsOf(s: Source): seq<Relation> {
    Tagged(SpecialToGeneral, s.sourceId, s.specializes)
    + Tagged(SuperiorToInferior, s.sourceId, s.superior)
    + Tagged(TemporalSuccessor, s.sourceId, s.supersedes)
  }

  /** Every relation of the requested sources, in the order in which they are read. */
  function Relations(cat: Catalog, ids: seq<string>): seq<Relation>
    requires forall id | id in ids :: id in cat.sources
  {
    if ids == [] then []
    else Relations(cat, ids[..|ids| - 1]) + RelationsOf(cat.sources[ids[|ids| - 1]])
  }

  /** The lists built while relations are read; reading stops at a target out of scope. */
  datatype Scan = Scan(findings: seq<Finding>, edges: seq<Edge>, inScope: bool)

  function ScanOne(sc: Scan, r: Relation, scope: set<string>, active: set<string>): Scan {
    if !sc.inScope then sc
    else if r.weaker !in scope then sc.(inScope := false)
    else
      var both := r.stronger in active && r.weaker in active;
      Scan(sc.findings + [Finding(r, both)], if both then sc.edges + [(r.stronger, r.weaker)] else sc.edges, true)
  }

  function ScanAll(sc: Scan, rs: seq<Relation>, scope: set<string>, active: set<string>): Scan {
    if rs == [] then sc else ScanOne(ScanAll(sc, rs[..|rs| - 1], scope, active), rs[|rs| - 1], scope, active)
  }

  function ScanRequest(cat: Catalog, request: Request): Scan
    requires Known(cat, request)
  {
    ScanAll(Scan([], [], true), Relations(cat, request.sourceIds),
            Elems(request.sourceIds) * cat.sources.Keys, ActiveIds(cat, request))
  }

  // ----- The resolution -----------------------------------------------------------------

  function Limited(r: Resolution): Outcome {
    if |r.findings| > MAX_FINDINGS then Rejected else Returned(r)
  }

  function Blocked(request: Request, status: Status, assessments: seq<Assessment>, findings: seq<Finding>,
                   reason: string, limitations: seq<string>): Outcome {
    Limited(Resolution(false, status, request.asOf, request.sourceIds, [], None, assessments, findings, [reason], limitations))
  }

  /** Active sources that no active relation puts below another. */
  function Undominated(active: set<string>, edges: set<Edge>): set<string> {
    active - set e | e in edges :: e.1
  }

  ghost function NoneActive(request: Request, assessments: seq<Assessment>): Outcome {
    if forall a | a in assessments :: a.status.NotYetEffective? then
      Blocked(request, HistoricalVersionUnavailable, assessments, [], "APPLICABILITY_HISTORICAL_VERSION_UNAVAILABLE", [])
    else
      Blocked(request, NotApplicable, assessments, [], "APPLICABILITY_NO_ACTIVE_SOURCE", [])
  }

  /** What the relations decide among active sources. */
  ghost function Conclude(request: Request, assessments: seq<Assessment>, active: set<string>, scan: Scan): Outcome {
    var edges := Elems(scan.edges);
    var selected := Undominated(active, edges);
    if !scan.inScope then
      Blocked(request, Indeterminate, assessments, scan.findings, "APPLICABILITY_RELATION_TARGET_NOT_IN_SCOPE", [])
    else if Cyclic(edges) then
      Blocked(request, Conflicting, assessments, scan.findings, "APPLICABILITY_RELATION_CYCLE", [])
    else if |selected| != 1 then
      if edges != {} then
        Blocked(request, Conflicting, assessments, scan.findings, "APPLICABILITY_ACTIVE_SOURCES_CONFLICT", [])
      else
        Blocked(request, Indeterminate, assessments, scan.findings, "APPLICABILITY_RELATION_UNRESOLVED", [])
    else
      var c :| c in selected;
      Limited(Resolution(true, Applicable, request.asOf, request.sourceIds, [c], Some(c), assessments, scan.findings, [], []))
  }

  ghost function Resolve(cat: Catalog, request: Request): Outcome {
    var gate := Gate(cat, request);
    if gate.Some? then Blocked(request, Indeterminate, [], [], gate.value.0, gate.value.1)
    else
      assert Known(cat, request);
      var assessments, active := Assessments(cat, request), ActiveIds(cat, request);
      if active == {} then NoneActive(request, assessments)
      else Conclude(request, assessments, active, ScanRequest(cat, request))
  }

  // ----- The resolver itself ------------------------------------------------------------

  /** The successors of each node; a target without successors is a node as well. */
  ghost predicate Adjacent(graph: map<string, set<string>>, edges: seq<Edge>) {
    && (forall n, c | n in graph && c in graph[n] :: (n, c) in edges && c in graph)
    && (forall e | e in edges :: e.0 in graph && e.1 in graph[e.0])
  }

  lemma AdjacentAppend(graph: map<string, set<string>>, edges: seq<Edge>, source: string, target: string)
    requires Adjacent(graph, edges)
    ensures var wider := graph[source := (if source in graph then graph[source] else {}) + {target}];
            Adjacent(wider[target := if target in wider then wider[target] else {}], edges + [(source, target)])
  {
  }

  method Adjacency(edges: seq<Edge>) returns (graph: map<string, set<string>>)
    ensures Adjacent(graph, edges)
  {
    graph := map[];
    for i := 0 to |edges|
      invariant Adjacent(graph, edges[..i])
    {
      var (source, target) := edges[i];
      AdjacentAppend(graph, edges[..i], source, target);
      assert edges[..i + 1] == edges[..i] + [(source, target)];
      hide Adjacent;
      graph := graph[source := (if source in graph then graph[source] else {}) + {target}];
      graph := graph[target := if target in graph then graph[target] else {}];
    }
    assert edges[..|edges|] == edges;
  }

  /** Whether the relation edges contain a cycle. The sets of successors are walked in
      whatever order they come. */
  method HasCycle(edges: seq<Edge>) returns (cyclic: bool)
    ensures cyclic <==> Cyclic(Elems(edges))
  {
    var graph := Adjacency(edges);
    var children := AnyOrder(graph);
    var search := new DepthFirstSearch(children);
    assert search.Edges() == Elems(edges) by {
      forall e | e in edges
        ensures e in search.Edges()
      {
        assert e.1 in Elems(children[e.0]);
      }
      forall e | e in search.Edges()
        ensures e in Elems(edges)
      {
        assert e.1 in Elems(children[e.0]);
      }
    }
    hide Elems;
    hide Adjacent;
    hide Cyclic;
    cyclic := search.Search();
  }

  /** Lists each set of successors in some order. */
  method AnyOrder(graph: map<string, set<string>>) returns (children: map<string, seq<string>>)
    requires forall n, c | n in graph && c in graph[n] :: c in graph
    ensures children.Keys == graph.Keys
    ensures forall n | n in graph :: Elems(children[n]) == graph[n]
    ensures forall n, c | n in children.Keys && c in children[n] :: c in children.Keys
  {
    children := map[];
    var todo := graph.Keys;
    while todo != {}
      invariant todo <= graph.Keys && children.Keys == graph.Keys - todo
      invariant forall n | n in children :: Elems(children[n]) == graph[n]
      decreases todo
    {
      var node :| node in todo;
      todo := todo - {node};
      var left, listed := graph[node], [];
      while left != {}
        invariant left <= graph[node] && Elems(listed) == graph[node] - left
        decreases left
      {
        var child :| child in left;
        left := left - {child};
        assert Elems(listed + [child]) == Elems(listed) + {child};
        listed := listed + [child];
      }
      children := children[node := listed];
    }
    forall n, c | n in children.Keys && c in children[n]
      ensures c in children.Keys
    {
      assert c in Elems(children[n]);
    }
  }

  lemma {:induction false} ScanConcat(sc: Scan, a: seq<Relation>, b: seq<Relation>, scope: set<string>, active: set<string>)
    ensures ScanAll(sc, a + b, scope, active) == ScanAll(ScanAll(sc, a, scope, active), b, scope, active)
  {
    if b == [] {
      assert a + b == a;
    } else {
      ScanConcat(sc, a, b[..|b| - 1], scope, active);
      assert (a + b)[..|a + b| - 1] == a + b[..|b| - 1];
    }
  }

  lemma {:induction false} ScanStops(sc: Scan, rs: seq<Relation>, scope: set<string>, active: set<string>)
    requires !sc.inScope
    ensures ScanAll(sc, rs, scope, active) == sc
  {
    if rs != [] {
      ScanStops(sc, rs[..|rs| - 1], scope, active);
    }
  }

  /** Reads the relations of one kind of one source, up to the first target out of scope. */
  method ReadTargets(sc0: Scan, kind: RelationKind, stronger: string, targets: seq<string>, scope: set<string>, active: set<string>)
    returns (sc: Scan)
    requires sc0.inScope
    ensures sc == ScanAll(sc0, Tagged(kind, stronger, targets), scope, active)
  {
    var findings, edges := sc0.findings, sc0.edges;
    for i := 0 to |targets|
      invariant Scan(findings, edges, true) == ScanAll(sc0, Tagged(kind, stronger, targets[..i]), scope, active)
    {
      var target := targets[i];
      ghost var before, after := Tagged(kind, stronger, targets[..i]), Tagged(kind, stronger, targets[..i + 1]);
      assert targets[..i + 1][..i] == targets[..i];
      assert after[..|after| - 1] == before;
      if target !in scope {
        sc := Scan(findings, edges, false);
        TaggedSplit(kind, stronger, targets, i + 1);
        ScanConcat(sc0, after, Tagged(kind, stronger, targets[i + 1..]), scope, active);
        ScanStops(sc, Tagged(kind, stronger, targets[i + 1..]), scope, active);
        return;
      }
      var both := stronger in active && target in active;
      findings := findings + [Finding(Relation(kind, stronger, target), both)];
      if both {
        edges := edges + [(stronger, target)];
      }
    }
    assert targets[..|targets|] == targets;
    sc := Scan(findings, edges, true);
  }

  lemma {:induction false} TaggedSplit(kind: RelationKind, stronger: string, targets: seq<string>, n: nat)
    requires n <= |targets|
    ensures Tagged(kind, stronger, targets) == Tagged(kind, stronger, targets[..n]) + Tagged(kind, stronger, targets[n..])
    decreases |targets|
  {
    if n == |targets| {
      assert targets[..n] == targets;
    } else {
      var rest := targets[..|targets| - 1];
      TaggedSplit(kind, stronger, rest, n);
      assert rest[..n] == targets[..n];
      assert targets[n..][..|targets[n..]| - 1] == rest[n..];
    }
  }

  /** Reading one source is reading its three lists in turn, as long as each stays in scope. */
  lemma ReadConcat(sc: Scan, s: Source, scope: set<string>, active: set<string>)
    ensures var a := ScanAll(sc, Tagged(SpecialToGeneral, s.sourceId, s.specializes), scope, active);
            var b := ScanAll(a, Tagged(SuperiorToInferior, s.sourceId, s.superior), scope, active);
            var c := ScanAll(b, Tagged(TemporalSuccessor, s.sourceId, s.supersedes), scope, active);
            && ScanAll(sc, RelationsOf(s), scope, active) == c
            && (!a.inScope ==> b == a) && (!b.inScope ==> c == b)
  {
    var x, y, z := Tagged(SpecialToGeneral, s.sourceId, s.specializes), Tagged(SuperiorToInferior, s.sourceId, s.superior),
                   Tagged(TemporalSuccessor, s.sourceId, s.supersedes);
    ScanConcat(sc, x + y, z, scope, active);
    ScanConcat(sc, x, y, scope, active);
    var a := ScanAll(sc, x, scope, active);
    var b := ScanAll(a, y, scope, active);
    if !a.inScope {
      ScanStops(a, y, scope, active);
    }
    if !b.inScope {
      ScanStops(b, z, scope, active);
    }
  }

  lemma {:induction false} RelationsSplit(cat: Catalog, ids: seq<string>, n: nat)
    requires n <= |ids| && forall id | id in ids :: id in cat.sources
    ensures Relations(cat, ids) == Relations(cat, ids[..n]) + Relations(cat, ids[n..])
    decreases |ids|
  {
    hide RelationsOf;
    if n == |ids| {
      assert ids[..n] == ids;
    } else {
      var rest := ids[..|ids| - 1];
      RelationsSplit(cat, rest, n);
      assert rest[..n] == ids[..n];
      assert ids[n..][..|ids[n..]| - 1] == rest[n..];
    }
  }

  /** Reads the three kinds of relations of one record. */
  method ReadSource(sc0: Scan, s: Source, scope: set<string>, active: set<string>) returns (sc: Scan)
    requires sc0.inScope
    ensures sc == ScanAll(sc0, RelationsOf(s), scope, active)
  {
    ReadConcat(sc0, s, scope, active);
    hide RelationsOf;
    sc := ReadTargets(sc0, SpecialToGeneral, s.sourceId, s.specializes, scope, active);
    if sc.inScope {
      sc := ReadTargets(sc, SuperiorToInferior, s.sourceId, s.superior, scope, active);
    }
    if sc.inScope {
      sc := ReadTargets(sc, TemporalSuccessor, s.sourceId, s.supersedes, scope, active);
    }
  }

  /** Reads the relations of every record, source by source. */
  method ReadRelations(cat: Catalog, request: Request, active: set<string>) returns (sc: Scan)
    requires Known(cat, request) && active == ActiveIds(cat, request)
    ensures sc == ScanRequest(cat, request)
  {
    hide RelationsOf;
    var ids := request.sourceIds;
    var scope := Elems(ids) * cat.sources.Keys;
    ghost var sc0 := Scan([], [], true);
    sc := Scan([], [], true);
    for i := 0 to |ids|
      invariant sc.inScope
      invariant sc == ScanAll(sc0, Relations(cat, ids[..i]), scope, active)
    {
      var s := cat.sources[ids[i]];
      assert ids[..i + 1][..i] == ids[..i];
      ScanConcat(sc0, Relations(cat, ids[..i]), RelationsOf(s), scope, active);
      sc := ReadSource(sc, s, scope, active);
      if !sc.inScope {
        RelationsSplit(cat, ids, i + 1);
        ScanConcat(sc0, Relations(cat, ids[..i + 1]), Relations(cat, ids[i + 1..]), scope, active);
        ScanStops(sc, Relations(cat, ids[i + 1..]), scope, active);
        return;
      }
    }
    assert ids[..|ids|] == ids;
  }

  /** Drops every active source that an active relation puts below another. */
  method Select(active: set<string>, edges: seq<Edge>) returns (selected: set<string>)
    ensures selected == Undominated(active, Elems(edges))
  {
    selected := active;
    for i := 0 to |edges|
      invariant selected == Undominated(active, Elems(edges[..i]))
    {
      assert edges[..i + 1] == edges[..i] + [edges[i]];
      ElemsAppend(edges[..i], edges[i]);
      UndominatedAppend(active, Elems(edges[..i]), edges[i]);
      selected := selected - {edges[i].1};
    }
    assert edges[..|edges|] == edges;
  }

  lemma UndominatedAppend(active: set<string>, edges: set<Edge>, e: Edge)
    ensures Undominated(active, edges + {e}) == Undominated(active, edges) - {e.1}
  {
  }

  /** The conclusion once the relations are read: scope, cycles, then the only source left. */
  method DecideActive(request: Request, assessments: seq<Assessment>, active: set<string>, scan: Scan) returns (outcome: Outcome)
    ensures outcome == Conclude(request, assessments, active, scan)
  {
    hide Blocked;
    hide Limited;
    hide Undominated;
    hide Cyclic;
    if !scan.inScope {
      return Blocked(request, Indeterminate, assessments, scan.findings, "APPLICABILITY_RELATION_TARGET_NOT_IN_SCOPE", []);
    }
    var cyclic := HasCycle(scan.edges);
    if cyclic {
      return Blocked(request, Conflicting, assessments, scan.findings, "APPLICABILITY_RELATION_CYCLE", []);
    }
    var selected := Select(active, scan.edges);
    EmptyElems(scan.edges);
    hide Elems;
    if |selected| != 1 {
      if scan.edges != [] {
        return Blocked(request, Conflicting, assessments, scan.findings, "APPLICABILITY_ACTIVE_SOURCES_CONFLICT", []);
      }
      return Blocked(request, Indeterminate, assessments, scan.findings, "APPLICABILITY_RELATION_UNRESOLVED", []);
    }
    var controlling :| controlling in selected;
    OnlyOne(selected);
    return Limited(Resolution(true, Applicable, request.asOf, request.sourceIds, [controlling], Some(controlling),
                              assessments, scan.findings, [], []));
  }

  lemma GateKnown(cat: Catalog, request: Request)
    requires Gate(cat, request).None?
    ensures Known(cat, request)
  {
  }

  /** The resolver: gates, then time and scope, then the relations of the active sources. */
  method ResolveRequest(cat: Catalog, request: Request) returns (outcome: Outcome)
    ensures outcome == Resolve(cat, request)
  {
    hide Blocked;
    hide Conclude;
    hide ScanRequest;
    hide Assessments;
    hide ActiveIds;
    hide Gate;
    var gate := Gate(cat, request);
    if gate.Some? {
      return Blocked(request, Indeterminate, [], [], gate.value.0, gate.value.1);
    }
    GateKnown(cat, request);
    var assessments, active := Assessments(cat, request), ActiveIds(cat, request);
    if active == {} {
      if forall a | a in assessments :: a.status.NotYetEffective? {
        return Blocked(request, HistoricalVersionUnavailable, assessments, [], "APPLICABILITY_HISTORICAL_VERSION_UNAVAILABLE", []);
      }
      return Blocked(request, NotApplicable, assessments, [], "APPLICABILITY_NO_ACTIVE_SOURCE", []);
    }
    var scan := ReadRelations(cat, request, active);
    outcome := DecideActive(request, assessments, active, scan);
  }

  lemma OnlyOne<T>(s: set<T>)
    requires |s| == 1
    ensures forall x, y | x in s && y in s :: x == y
  {
    forall x, y | x in s && y in s
      ensures x == y
    {
      if x != y {
        SubsetCardinality({x, y}, s);
      }
    }
  }
}
