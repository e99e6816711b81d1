/** The authority-lineage contract: the graph checks it passes when it is built, and its
    validation against the identifiers one server-owned run may reference. */
module AuthorityLineage {
  import opened Collections
  import opened Graphs

  datatype Coverage = Complete | PartialCoverage | NotChecked | NotFoundInScope | ProviderError

  const MAX_EVIDENCE := 128

  datatype Role = Holding | Procedure | OtherRole | CandidateOnly | UnknownRole

  /** Whether each axis of an authority assessment is still unresolved. */
  datatype Axes = Axes(force: bool, institution: bool, adjudication: bool, stage: bool, temporal: bool, validity: bool)
  {
    predicate Unresolved() {
      force || institution || adjudication || stage || temporal || validity
    }
  }

  datatype Posture = Posture(stageKnown: bool, resolved: bool, sourceIds: seq<string>, evidenceIds: seq<string>)

  datatype Node = Node(nodeId: string, sourceId: string, role: Role, axes: Axes, posture: Posture, evidenceIds: seq<string>)
  {
    /** The node's and its posture's own validators and list limits. */
    ghost predicate Valid() {
      && Distinct(evidenceIds) && sourceId !in evidenceIds && |evidenceIds| <= 128
      && |posture.sourceIds| <= 32 && |posture.evidenceIds| <= 64
      && Distinct(posture.sourceIds) && Distinct(posture.evidenceIds)
      && (posture.resolved ==> posture.stageKnown)
    }

    predicate Unresolved() {
      role.CandidateOnly? || role.UnknownRole? || axes.Unresolved() || !posture.resolved
    }
  }

  datatype LineageEdge = LineageEdge(edgeId: string, fromId: string, toId: string, sourceIds: seq<string>, evidenceIds: seq<string>)
  {
    ghost predicate Valid() {
      fromId != toId && Distinct(sourceIds) && Distinct(evidenceIds) && |sourceIds| <= 32 && |evidenceIds| <= 64
    }
  }

  /** A bounded scope; the two flags are claims that no scope may make. */
  datatype Scope = Scope(providerIds: seq<string>, maxResults: int, absenceClaim: bool, consensusClaim: bool)
  {
    /** The scope's own validator and limits. */
    ghost predicate Valid() {
      && 1 <= |providerIds| <= 32 && Distinct(providerIds) && (forall p | p in providerIds :: !Blank(p))
      && 1 <= maxResults <= 512
    }
  }

  datatype NotFoundResult = NotFoundResult(scope: Scope, absenceClaim: bool, consensusClaim: bool)

  datatype TreatmentStatus = TreatmentNotChecked | TreatmentNotFound | Reversed | OtherTreatment | TreatmentError

  datatype Treatment = Treatment(
    target: string,
    status: TreatmentStatus,
    treating: seq<string>,
    scope: Option<Scope>,
    sourceIds: seq<string>,
    evidenceIds: seq<string>,
    reasons: seq<string>,
    classified: bool,
    consensusClaim: bool)
  {
    ghost predicate Valid() {
      && Distinct(treating) && Distinct(sourceIds) && Distinct(evidenceIds) && Distinct(reasons)
      && |treating| <= 64 && |sourceIds| <= 64 && |evidenceIds| <= 128 && |reasons| <= 32
      && match status
         case TreatmentNotFound => scope.Some? && treating == [] && sourceIds == [] && evidenceIds == []
         case TreatmentNotChecked => treating == []
         case TreatmentError => true
         case _ => treating != []
    }
  }

  datatype Contract = Contract(
    runId: string,
    serverOwned: bool,
    coverage: Coverage,
    scope: Option<Scope>,
    nodes: seq<Node>,
    edges: seq<LineageEdge>,
    treatments: seq<Treatment>,
    notFound: Option<NotFoundResult>,
    limitations: seq<string>,
    classified: bool,
    consensusClaim: bool)

  // ----- The graph ----------------------------------------------------------------------

  function NodeIds(nodes: seq<Node>): seq<string> {
    seq(|nodes|, i requires 0 <= i < |nodes| => nodes[i].nodeId)
  }

  function EdgeIds(edges: seq<LineageEdge>): seq<string> {
    seq(|edges|, i requires 0 <= i < |edges| => edges[i].edgeId)
  }

  function EdgePairs(edges: seq<LineageEdge>): set<Edge> {
    set e | e in edges :: (e.fromId, e.toId)
  }

  ghost predicate EndpointsKnown(c: Contract) {
    forall e | e in c.edges :: e.fromId in NodeIds(c.nodes) && e.toId in NodeIds(c.nodes)
  }

  ghost predicate TreatmentsKnown(c: Contract) {
    forall t | t in c.treatments ::
      t.target in NodeIds(c.nodes) && forall n | n in t.treating :: n in NodeIds(c.nodes)
  }

  /** A bounded miss is reported exactly with the coverage that says so, and in one scope. */
  ghost predicate CoverageConsistent(c: Contract) {
    && (c.coverage.NotFoundInScope? <==> c.notFound.Some?)
    && (c.notFound.Some? ==> c.scope == Some(c.notFound.value.scope))
  }

  ghost predicate GraphValid(c: Contract) {
    && Distinct(NodeIds(c.nodes)) && Distinct(EdgeIds(c.edges))
    && EndpointsKnown(c) && TreatmentsKnown(c) && CoverageConsistent(c)
    && Distinct(c.limitations)
    && !Cyclic(EdgePairs(c.edges))
  }

  /** Adjacency lists over the contract's nodes, then a depth-first search from every node. */
  method IsAcyclic(nodeIds: set<string>, edges: seq<LineageEdge>) returns (acyclic: bool)
    requires forall e | e in edges :: e.fromId in nodeIds && e.toId in nodeIds
    ensures acyclic <==> !Cyclic(EdgePairs(edges))
  {
    var adjacency: map<string, seq<string>> := map n | n in nodeIds :: [];
    for i := 0 to |edges|
      invariant adjacency.Keys == nodeIds
      invariant forall n, c | n in adjacency && c in adjacency[n] :: exists e :: e in edges[..i] && e.fromId == n && e.toId == c
      invariant forall e | e in edges[..i] :: e.toId in adjacency[e.fromId]
    {
      var edge := edges[i];
      assert edges[..i + 1] == edges[..i] + [edge];
      ghost var before := adjacency;
      adjacency := adjacency[edge.fromId := adjacency[edge.fromId] + [edge.toId]];
      forall n, c | n in adjacency && c in adjacency[n]
        ensures exists e :: e in edges[..i + 1] && e.fromId == n && e.toId == c
      {
        if c in before[n] {
          var e :| e in edges[..i] && e.fromId == n && e.toId == c;
          assert e in edges[..i + 1];
        } else {
          assert edge in edges[..i + 1];
        }
      }
    }
    assert edges[..|edges|] == edges;
    var search := new DepthFirstSearch(adjacency);
    assert search.Edges() == EdgePairs(edges);
    var cyclic := search.Search();
    return !cyclic;
  }

  /** The checks made whenever a contract is built. */
  method ValidateGraph(c: Contract) returns (ok: bool)
    ensures ok <==> GraphValid(c)
  {
    var nodeIds := NodeIds(c.nodes);
    if !AllUnique(nodeIds) || !AllUnique(EdgeIds(c.edges)) {
      return false;
    }
    var known := Elems(nodeIds);
    for i := 0 to |c.edges|
      invariant forall e | e in c.edges[..i] :: e.fromId in known && e.toId in known
    {
      if c.edges[i].fromId !in known || c.edges[i].toId !in known {
        assert c.edges[i] in c.edges;
        return false;
      }
    }
    for i := 0 to |c.treatments|
      invariant forall t | t in c.treatments[..i] :: t.target in known && Elems(t.treating) <= known
    {
      var t := c.treatments[i];
      if t.target !in known || !(Elems(t.treating) <= known) {
        assert t in c.treatments;
        if t.target in known {
          ghost var n :| n in Elems(t.treating) && n !in known;
          assert n in t.treating && n !in nodeIds;
        }
        return false;
      }
    }
    forall t, n | t in c.treatments && n in t.treating
      ensures n in nodeIds
    {
      assert n in Elems(t.treating);
    }
    if c.coverage.NotFoundInScope? != c.notFound.Some? || !AllUnique(c.limitations) {
      return false;
    }
    if c.notFound.Some? && c.scope != Some(c.notFound.value.scope) {
      return false;
    }
    ok := IsAcyclic(known, c.edges);
  }

  // ----- References ---------------------------------------------------------------------

  function NodeSources(nodes: seq<Node>): set<string> {
    if nodes == [] then {}
    else
      var last := nodes[|nodes| - 1];
      NodeSources(nodes[..|nodes| - 1]) + {last.sourceId} + Elems(last.posture.sourceIds)
  }

  function NodeEvidence(nodes: seq<Node>): set<string> {
    if nodes == [] then {}
    else
      var last := nodes[|nodes| - 1];
      NodeEvidence(nodes[..|nodes| - 1]) + Elems(last.evidenceIds) + Elems(last.posture.evidenceIds)
  }

  function EdgeSources(edges: seq<LineageEdge>): set<string> {
    if edges == [] then {} else EdgeSources(edges[..|edges| - 1]) + Elems(edges[|edges| - 1].sourceIds)
  }

  function EdgeEvidence(edges: seq<LineageEdge>): set<string> {
    if edges == [] then {} else EdgeEvidence(edges[..|edges| - 1]) + Elems(edges[|edges| - 1].evidenceIds)
  }

  function TreatmentSources(ts: seq<Treatment>): set<string> {
    if ts == [] then {} else TreatmentSources(ts[..|ts| - 1]) + Elems(ts[|ts| - 1].sourceIds)
  }

  function TreatmentEvidence(ts: seq<Treatment>): set<string> {
    if ts == [] then {} else TreatmentEvidence(ts[..|ts| - 1]) + Elems(ts[|ts| - 1].evidenceIds)
  }

  function SourceRefs(c: Contract): set<string> {
    NodeSources(c.nodes) + EdgeSources(c.edges) + TreatmentSources(c.treatments)
  }

  function EvidenceRefs(c: Contract): set<string> {
    NodeEvidence(c.nodes) + EdgeEvidence(c.edges) + TreatmentEvidence(c.treatments)
  }

  method NodeRefs(nodes: seq<Node>) returns (sources: set<string>, evidence: set<string>)
    ensures sources == NodeSources(nodes) && evidence == NodeEvidence(nodes)
  {
    sources, evidence := {}, {};
    for i := 0 to |nodes|
      invariant sources == NodeSources(nodes[..i]) && evidence == NodeEvidence(nodes[..i])
    {
      assert nodes[..i + 1][..i] == nodes[..i];
      sources := sources + {nodes[i].sourceId} + Elems(nodes[i].posture.sourceIds);
      evidence := evidence + Elems(nodes[i].evidenceIds) + Elems(nodes[i].posture.evidenceIds);
    }
    assert nodes[..|nodes|] == nodes;
  }

  method EdgeRefs(edges: seq<LineageEdge>) returns (sources: set<string>, evidence: set<string>)
    ensures sources == EdgeSources(edges) && evidence == EdgeEvidence(edges)
  {
    sources, evidence := {}, {};
    for i := 0 to |edges|
      invariant sources == EdgeSources(edges[..i]) && evidence == EdgeEvidence(edges[..i])
    {
      assert edges[..i + 1][..i] == edges[..i];
      sources := sources + Elems(edges[i].sourceIds);
      evidence := evidence + Elems(edges[i].evidenceIds);
    }
    assert edges[..|edges|] == edges;
  }

  method TreatmentRefs(ts: seq<Treatment>) returns (sources: set<string>, evidence: set<string>)
    ensures sources == TreatmentSources(ts) && evidence == TreatmentEvidence(ts)
  {
    sources, evidence := {}, {};
    for i := 0 to |ts|
      invariant sources == TreatmentSources(ts[..i]) && evidence == TreatmentEvidence(ts[..i])
    {
      assert ts[..i + 1][..i] == ts[..i];
      sources := sources + Elems(ts[i].sourceIds);
      evidence := evidence + Elems(ts[i].evidenceIds);
    }
    assert ts[..|ts|] == ts;
  }

  /** Every source and evidence identifier the contract mentions. */
  method ContractRefs(c: Contract) returns (sources: set<string>, evidence: set<string>)
    ensures sources == SourceRefs(c) && evidence == EvidenceRefs(c)
  {
    sources, evidence := NodeRefs(c.nodes);
    var edgeSources, edgeEvidence := EdgeRefs(c.edges);
    var treatmentSources, treatmentEvidence := TreatmentRefs(c.treatments);
    sources := sources + edgeSources + treatmentSources;
    evidence := evidence + edgeEvidence + treatmentEvidence;
  }

  // ----- Validation against a run -------------------------------------------------------

  datatype LineageValidation = LineageValidation(
    valid: bool,
    structurallyValid: bool,
    eligible: bool,
    checkedSources: set<string>,
    checkedEvidence: set<string>,
    blockers: seq<string>,
    qualifications: seq<string>)

  /** A sentinel of the contract was changed after it was built. */
  ghost predicate Forged(c: Contract) {
    || !c.serverOwned || c.classified || c.consensusClaim
    || (c.scope.Some? && (c.scope.value.absenceClaim || c.scope.value.consensusClaim))
    || (c.notFound.Some? && (c.notFound.value.absenceClaim || c.notFound.value.consensusClaim))
    || exists t | t in c.treatments :: t.classified || t.consensusClaim
  }

  /** What the server can vouch for before it looks at single nodes. */
  ghost predicate Bound(c: Contract, runId: string, sourceIds: seq<string>, evidenceIds: seq<string>) {
    && !Forged(c)
    && Distinct(sourceIds) && Distinct(evidenceIds)
    && c.runId == runId
    && SourceRefs(c) <= Elems(sourceIds) && EvidenceRefs(c) <= Elems(evidenceIds)
    && (c.nodes != [] || c.coverage.NotFoundInScope?)
  }

  /** Every resolved posture rests on the node's own source. */
  ghost predicate PosturesBound(nodes: seq<Node>) {
    forall n | n in nodes :: n.posture.resolved ==> n.sourceId in n.posture.sourceIds
  }

  ghost predicate StructurallyValid(c: Contract, runId: string, sourceIds: seq<string>, evidenceIds: seq<string>) {
    Bound(c, runId, sourceIds, evidenceIds) && PosturesBound(c.nodes)
  }

  ghost predicate Eligible(c: Contract, runId: string, sourceIds: seq<string>, evidenceIds: seq<string>) {
    && Bound(c, runId, sourceIds, evidenceIds)
    && c.coverage.Complete?
    && (forall n | n in c.nodes :: !n.Unresolved())
    && c.treatments == [] && c.notFound.None?
  }

  // ----- The codes of the blockers ------------------------------------------------------

  ghost function ForgeryCodes(c: Contract): set<string> {
    TrustCodes(c) + ScopeCodes(c) + TreatmentCodes(c.treatments)
  }

  ghost function TrustCodes(c: Contract): set<string> {
    (if c.serverOwned then {} else {"AUTHORITY_LINEAGE_TRUST_STATUS_INVALID"})
    + (if c.classified then {"AUTHORITY_LINEAGE_SEMANTIC_CLASSIFIER_FORGED"} else {})
    + (if c.consensusClaim then {"AUTHORITY_LINEAGE_CONSENSUS_GATE_FORGED"} else {})
  }

  ghost function ScopeCodes(c: Contract): set<string> {
    (if c.scope.Some? && (c.scope.value.absenceClaim || c.scope.value.consensusClaim) then {"AUTHORITY_LINEAGE_SCOPE_GATE_FORGED"} else {})
    + (if c.notFound.Some? && (c.notFound.value.absenceClaim || c.notFound.value.consensusClaim) then
         {"AUTHORITY_LINEAGE_NOT_FOUND_GATE_FORGED"} else {})
  }

  ghost function TreatmentCodes(ts: seq<Treatment>): set<string> {
    if exists t | t in ts :: t.classified || t.consensusClaim then {"NEGATIVE_TREATMENT_GATE_FORGED"} else {}
  }

  ghost function BindingCodes(c: Contract, runId: string, sourceIds: seq<string>, evidenceIds: seq<string>): set<string> {
    (if Distinct(sourceIds) then {} else {"SERVER_SOURCE_IDS_DUPLICATE"})
    + (if Distinct(evidenceIds) then {} else {"SERVER_EVIDENCE_IDS_DUPLICATE"})
    + (if c.runId == runId then {} else {"AUTHORITY_LINEAGE_RUN_MISMATCH"})
    + (if SourceRefs(c) <= Elems(sourceIds) then {} else {"AUTHORITY_LINEAGE_FOREIGN_SOURCE_ID"})
    + (if EvidenceRefs(c) <= Elems(evidenceIds) then {} else {"AUTHORITY_LINEAGE_FOREIGN_EVIDENCE_ID"})
    + (if c.nodes == [] && !c.coverage.NotFoundInScope? then {"AUTHORITY_LINEAGE_NODES_MISSING"} else {})
  }

  ghost function NodeCodes(nodes: seq<Node>, sourceIds: seq<string>): set<string> {
    (if exists n | n in nodes :: n.sourceId !in sourceIds then {"AUTHORITY_LINEAGE_SOURCE_NOT_SERVER_OWNED"} else {})
    + (if PosturesBound(nodes) then {} else {"AUTHORITY_LINEAGE_POSTURE_SOURCE_UNBOUND"})
  }

  lemma {:induction false} NodeSourcesHave(nodes: seq<Node>, i: nat)
    requires i < |nodes|
    ensures nodes[i].sourceId in NodeSources(nodes)
  {
    if i < |nodes| - 1 {
      NodeSourcesHave(nodes[..|nodes| - 1], i);
    }
  }

  method TreatmentBlockers(ts: seq<Treatment>, blockers0: seq<string>) returns (blockers: seq<string>)
    ensures blockers == [] <==> blockers0 == [] && forall t | t in ts :: !t.classified && !t.consensusClaim
    ensures Elems(blockers) == Elems(blockers0) + TreatmentCodes(ts)
  {
    blockers := blockers0;
    hide Elems;
    for i := 0 to |ts|
      invariant blockers == [] <==> blockers0 == [] && forall t | t in ts[..i] :: !t.classified && !t.consensusClaim
      invariant Elems(blockers) == Elems(blockers0) + TreatmentCodes(ts[..i])
    {
      assert ts[..i + 1] == ts[..i] + [ts[i]];
      if ts[i].classified || ts[i].consensusClaim {
        ElemsAppend(blockers, "NEGATIVE_TREATMENT_GATE_FORGED");
        blockers := blockers + ["NEGATIVE_TREATMENT_GATE_FORGED"];
        assert ts[i] in ts[..i + 1];
      }
    }
    assert ts[..|ts|] == ts;
  }

  method TrustBlockers(c: Contract) returns (blockers: seq<string>)
    ensures blockers == [] <==> c.serverOwned && !c.classified && !c.consensusClaim
    ensures Elems(blockers) == TrustCodes(c)
  {
    assert Elems<string>([]) == {};
    hide Elems;
    hide AddIf;
    blockers := AddIf([], !c.serverOwned, "AUTHORITY_LINEAGE_TRUST_STATUS_INVALID");
    blockers := AddIf(blockers, c.classified, "AUTHORITY_LINEAGE_SEMANTIC_CLASSIFIER_FORGED");
    blockers := AddIf(blockers, c.consensusClaim, "AUTHORITY_LINEAGE_CONSENSUS_GATE_FORGED");
  }

  /** The trust and anti-claim sentinels are checked again: a contract may have been altered. */
  method ForgeryBlockers(c: Contract) returns (blockers: seq<string>)
    ensures blockers == [] <==> !Forged(c)
    ensures Elems(blockers) == ForgeryCodes(c)
  {
    hide Elems;
    hide AddIf;
    hide TrustCodes;
    hide TreatmentCodes;
    blockers := TrustBlockers(c);
    blockers := AddIf(blockers, c.scope.Some? && (c.scope.value.absenceClaim || c.scope.value.consensusClaim),
                      "AUTHORITY_LINEAGE_SCOPE_GATE_FORGED");
    blockers := AddIf(blockers, c.notFound.Some? && (c.notFound.value.absenceClaim || c.notFound.value.consensusClaim),
                      "AUTHORITY_LINEAGE_NOT_FOUND_GATE_FORGED");
    blockers := TreatmentBlockers(c.treatments, blockers);
  }

  method ContractBlockers(c: Contract, runId: string, sourceIds: seq<string>, evidenceIds: seq<string>)
    returns (blockers: seq<string>, sources: set<string>, evidence: set<string>)
    ensures sources == SourceRefs(c) && evidence == EvidenceRefs(c)
    ensures blockers == [] <==> Bound(c, runId, sourceIds, evidenceIds)
    ensures Elems(blockers) == ForgeryCodes(c) + BindingCodes(c, runId, sourceIds, evidenceIds)
  {
    hide Forged;
    hide ForgeryCodes;
    hide SourceRefs;
    hide EvidenceRefs;
    hide Elems;
    hide Distinct;
    hide AllUnique;
    blockers := ForgeryBlockers(c);
    sources, evidence := ContractRefs(c);
    blockers := BindingBlockers(c, runId, sourceIds, evidenceIds, sources, evidence, blockers);
    hide BindingCodes;
  }

  method BindingBlockers(c: Contract, runId: string, sourceIds: seq<string>, evidenceIds: seq<string>, sources: set<string>,
                         evidence: set<string>, blockers0: seq<string>)
    returns (blockers: seq<string>)
    requires sources == SourceRefs(c) && evidence == EvidenceRefs(c)
    ensures Elems(blockers) == Elems(blockers0) + BindingCodes(c, runId, sourceIds, evidenceIds)
    ensures blockers == [] <==>
              && blockers0 == [] && Distinct(sourceIds) && Distinct(evidenceIds) && c.runId == runId
              && SourceRefs(c) <= Elems(sourceIds) && EvidenceRefs(c) <= Elems(evidenceIds)
              && (c.nodes != [] || c.coverage.NotFoundInScope?)
  {
    var sourcesUnique, evidenceUnique := AllUnique(sourceIds), AllUnique(evidenceIds);
    hide AllUnique;
    hide Distinct;
    DifferenceEmpty(sources, Elems(sourceIds));
    DifferenceEmpty(evidence, Elems(evidenceIds));
    hide SourceRefs;
    hide EvidenceRefs;
    hide Elems;
    hide AddIf;
    blockers := AddIf(blockers0, !sourcesUnique, "SERVER_SOURCE_IDS_DUPLICATE");
    blockers := AddIf(blockers, !evidenceUnique, "SERVER_EVIDENCE_IDS_DUPLICATE");
    blockers := AddIf(blockers, c.runId != runId, "AUTHORITY_LINEAGE_RUN_MISMATCH");
    blockers := AddIf(blockers, sources - Elems(sourceIds) != {}, "AUTHORITY_LINEAGE_FOREIGN_SOURCE_ID");
    blockers := AddIf(blockers, evidence - Elems(evidenceIds) != {}, "AUTHORITY_LINEAGE_FOREIGN_EVIDENCE_ID");
    blockers := AddIf(blockers, c.nodes == [] && !c.coverage.NotFoundInScope?, "AUTHORITY_LINEAGE_NODES_MISSING");
  }

  const ROLE_UNRESOLVED := "AUTHORITY_LINEAGE_SOURCE_ROLE_UNRESOLVED:"
  const AXES_UNRESOLVED := "AUTHORITY_LINEAGE_AXES_UNRESOLVED:"
  const POSTURE_UNRESOLVED := "AUTHORITY_LINEAGE_PROCEDURAL_POSTURE_UNRESOLVED:"

  /** What qualifies one node: each kind of thing unresolved, with the node's id. */
  function Qualified(node: Node): seq<string> {
    (if node.role.CandidateOnly? || node.role.UnknownRole? then [ROLE_UNRESOLVED + node.nodeId] else [])
    + (if node.axes.Unresolved() then [AXES_UNRESOLVED + node.nodeId] else [])
    + (if !node.posture.resolved then [POSTURE_UNRESOLVED + node.nodeId] else [])
  }

  function NodesQualified(nodes: seq<Node>): seq<string> {
    if nodes == [] then [] else NodesQualified(nodes[..|nodes| - 1]) + Qualified(nodes[|nodes| - 1])
  }

  /** Everything that qualifies a contract, in the order in which it is reported. */
  function QualificationsOf(c: Contract): seq<string> {
    (if c.coverage.NotFoundInScope? then ["AUTHORITY_LINEAGE_NOT_FOUND_IN_SCOPE"] else [])
    + (if !c.coverage.Complete? then ["AUTHORITY_LINEAGE_COVERAGE_INCOMPLETE"] else [])
    + NodesQualified(c.nodes)
    + (if c.treatments != [] then ["NEGATIVE_TREATMENT_SEMANTIC_CLASSIFICATION_NOT_PERFORMED"] else [])
    + (if c.notFound.Some? then ["AUTHORITY_LINEAGE_NOT_FOUND_IS_BOUNDED_ONLY"] else [])
  }

  method NodeQualifications(node: Node) returns (found: seq<string>)
    ensures found == Qualified(node) && (found == [] <==> !node.Unresolved())
  {
    found := [];
    if node.role.CandidateOnly? || node.role.UnknownRole? {
      found := found + [ROLE_UNRESOLVED + node.nodeId];
    }
    if node.axes.Unresolved() {
      found := found + [AXES_UNRESOLVED + node.nodeId];
    }
    if !node.posture.resolved {
      found := found + [POSTURE_UNRESOLVED + node.nodeId];
    }
  }

  lemma NodeCodesAppend(nodes: seq<Node>, node: Node, sourceIds: seq<string>)
    ensures NodeCodes(nodes + [node], sourceIds) ==
              NodeCodes(nodes, sourceIds)
              + (if node.sourceId in sourceIds then {} else {"AUTHORITY_LINEAGE_SOURCE_NOT_SERVER_OWNED"})
              + (if node.posture.resolved && node.sourceId !in node.posture.sourceIds then {"AUTHORITY_LINEAGE_POSTURE_SOURCE_UNBOUND"} else {})
  {
    assert forall n :: n in nodes + [node] <==> n in nodes || n == node;
  }

  /** What the single nodes add: unresolved nodes qualify, unbound postures block. */
  method NodeFindings(nodes: seq<Node>, sourceIds: seq<string>) returns (blockers: seq<string>, qualifications: seq<string>)
    ensures blockers == [] <==> PosturesBound(nodes) && forall n | n in nodes :: n.sourceId in sourceIds
    ensures Elems(blockers) == NodeCodes(nodes, sourceIds)
    ensures qualifications == NodesQualified(nodes)
    ensures qualifications == [] <==> forall n | n in nodes :: !n.Unresolved()
  {
    blockers, qualifications := [], [];
    assert Elems<string>([]) == {};
    hide Qualified;
    hide Elems;
    hide AddIf;
    hide Node.Unresolved;
    for i := 0 to |nodes|
      invariant qualifications == NodesQualified(nodes[..i])
      invariant blockers == [] <==> PosturesBound(nodes[..i]) && forall n | n in nodes[..i] :: n.sourceId in sourceIds
      invariant Elems(blockers) == NodeCodes(nodes[..i], sourceIds)
      invariant qualifications == [] <==> forall n | n in nodes[..i] :: !n.Unresolved()
    {
      var node := nodes[i];
      assert nodes[..i + 1] == nodes[..i] + [node];
      assert nodes[..i + 1][..i] == nodes[..i];
      NodeCodesAppend(nodes[..i], node, sourceIds);
      hide NodeCodes;
      blockers := AddIf(blockers, node.sourceId !in sourceIds, "AUTHORITY_LINEAGE_SOURCE_NOT_SERVER_OWNED");
      blockers := AddIf(blockers, node.posture.resolved && node.sourceId !in node.posture.sourceIds, "AUTHORITY_LINEAGE_POSTURE_SOURCE_UNBOUND");
      var found := NodeQualifications(node);
      qualifications := qualifications + found;
    }
    assert nodes[..|nodes|] == nodes;
  }

  /** A qualification of the node with this id. */
  ghost predicate Qualifies(q: string, nodeId: string) {
    q == ROLE_UNRESOLVED + nodeId || q == AXES_UNRESOLVED + nodeId || q == POSTURE_UNRESOLVED + nodeId
  }

  lemma QualifiesOne(q: string, a: string, b: string)
    requires Qualifies(q, a) && Qualifies(q, b)
    ensures a == b
  {
    var p := if q == ROLE_UNRESOLVED + a then ROLE_UNRESOLVED else if q == AXES_UNRESOLVED + a then AXES_UNRESOLVED else POSTURE_UNRESOLVED;
    assert q[18] == p[18];
    assert ROLE_UNRESOLVED[18] == 'S' && AXES_UNRESOLVED[18] == 'A' && POSTURE_UNRESOLVED[18] == 'P';
    assert q == p + a && q == p + b;
    assert q[|p|..] == a && q[|p|..] == b;
  }

  lemma QualifiedIs(node: Node)
    ensures Distinct(Qualified(node))
    ensures forall q | q in Qualified(node) :: Qualifies(q, node.nodeId)
    ensures forall q | q in Qualified(node) :: |q| > 18 && q[18] in {'S', 'A', 'P'}
  {
    assert (ROLE_UNRESOLVED + node.nodeId)[18] == 'S';
    assert (AXES_UNRESOLVED + node.nodeId)[18] == 'A';
    assert (POSTURE_UNRESOLVED + node.nodeId)[18] == 'P';
  }

  /** The entry qualifies one of these nodes. */
  ghost predicate QualifiesSome(q: string, ids: seq<string>) {
    exists i | 0 <= i < |ids| :: Qualifies(q, ids[i])
  }

  ghost predicate QualificationShape(q: string) {
    |q| > 18 && q[18] in {'S', 'A', 'P'}
  }

  lemma QualifiedApart(q: string, ids: seq<string>, last: Node)
    requires QualifiesSome(q, ids) && last.nodeId !in ids
    ensures q !in Qualified(last)
  {
    QualifiedIs(last);
    hide Qualified;
    hide Qualifies;
    var i :| 0 <= i < |ids| && Qualifies(q, ids[i]);
    assert ids[i] != last.nodeId;
    if q in Qualified(last) {
      QualifiesOne(q, ids[i], last.nodeId);
    }
  }

  lemma QualifiesMore(q: string, ids: seq<string>, id: string)
    ensures QualifiesSome(q, ids) ==> QualifiesSome(q, ids + [id])
    ensures Qualifies(q, id) ==> QualifiesSome(q, ids + [id])
  {
    hide Qualifies;
    assert (ids + [id])[|ids|] == id;
    assert forall i | 0 <= i < |ids| :: (ids + [id])[i] == ids[i];
  }

  /** Nodes with different ids are qualified by different entries. */
  lemma {:induction false} NodesQualifiedAre(nodes: seq<Node>)
    requires Distinct(NodeIds(nodes))
    ensures Distinct(NodesQualified(nodes))
    ensures forall q | q in NodesQualified(nodes) :: QualifiesSome(q, NodeIds(nodes)) && QualificationShape(q)
  {
    hide Qualified;
    hide Qualifies;
    hide QualifiesSome;
    if nodes != [] {
      var rest, last := nodes[..|nodes| - 1], nodes[|nodes| - 1];
      var ids := NodeIds(rest);
      assert NodeIds(nodes) == ids + [last.nodeId];
      DistinctAppend(ids, last.nodeId);
      NodesQualifiedAre(rest);
      QualifiedIs(last);
      hide Distinct;
      hide NodeIds;
      forall q | q in NodesQualified(rest)
        ensures q !in Qualified(last) && QualifiesSome(q, ids + [last.nodeId])
      {
        QualifiedApart(q, ids, last);
        QualifiesMore(q, ids, last.nodeId);
      }
      forall q | q in Qualified(last)
        ensures QualifiesSome(q, ids + [last.nodeId])
      {
        QualifiesMore(q, ids, last.nodeId);
      }
      DistinctConcat(NodesQualified(rest), Qualified(last));
    }
  }

  /** The coverage first, then the nodes, then treatments and bounded misses. */
  method CollectQualifications(c: Contract, ofNodes: seq<string>) returns (qualifications: seq<string>)
    requires ofNodes == NodesQualified(c.nodes)
    ensures qualifications == QualificationsOf(c)
    ensures qualifications == [] <==> c.coverage.Complete? && ofNodes == [] && c.treatments == [] && c.notFound.None?
  {
    hide NodesQualified;
    qualifications := [];
    if c.coverage.NotFoundInScope? {
      qualifications := qualifications + ["AUTHORITY_LINEAGE_NOT_FOUND_IN_SCOPE"];
    }
    if !c.coverage.Complete? {
      qualifications := qualifications + ["AUTHORITY_LINEAGE_COVERAGE_INCOMPLETE"];
    }
    qualifications := qualifications + ofNodes;
    if c.treatments != [] {
      qualifications := qualifications + ["NEGATIVE_TREATMENT_SEMANTIC_CLASSIFICATION_NOT_PERFORMED"];
    }
    if c.notFound.Some? {
      qualifications := qualifications + ["AUTHORITY_LINEAGE_NOT_FOUND_IS_BOUNDED_ONLY"];
    }
  }

  const MAX_QUALIFICATIONS := 64

  /** Recording the result fails when it would hold more qualifications than it may. There are
      too few different blockers for their own limit to be reached. */
  method ValidateLineage(c: Contract, runId: string, sourceIds: seq<string>, evidenceIds: seq<string>)
    returns (r: Result<LineageValidation>)
    ensures r.Ok? <==> |Dedupe(QualificationsOf(c))| <= 64
    ensures r.Ok? ==>
              && (r.value.structurallyValid <==> StructurallyValid(c, runId, sourceIds, evidenceIds))
              && (r.value.eligible <==> Eligible(c, runId, sourceIds, evidenceIds))
              && (r.value.valid <==> r.value.structurallyValid && r.value.eligible)
              && r.value.checkedSources == SourceRefs(c) * Elems(sourceIds)
              && r.value.checkedEvidence == EvidenceRefs(c) * Elems(evidenceIds)
              && (r.value.blockers == [] <==> r.value.structurallyValid) && Distinct(r.value.blockers)
              && Elems(r.value.blockers) == ForgeryCodes(c) + BindingCodes(c, runId, sourceIds, evidenceIds) + NodeCodes(c.nodes, sourceIds)
              && r.value.qualifications == Dedupe(QualificationsOf(c)) && Distinct(r.value.qualifications)
              && (r.value.eligible ==> r.value.qualifications == [])
  {
    var blockers, sources, evidence := ContractBlockers(c, runId, sourceIds, evidenceIds);
    ghost var bound := blockers == [];
    if bound {
      BoundSources(c, runId, sourceIds, evidenceIds);
    }
    hide Bound;
    hide SourceRefs;
    hide EvidenceRefs;
    hide Elems;
    hide PosturesBound;
    hide NodesQualified;
    hide QualificationsOf;
    hide ForgeryCodes;
    hide BindingCodes;
    hide NodeCodes;
    var nodeBlockers, nodeQualifications := NodeFindings(c.nodes, sourceIds);
    var qualifications := CollectQualifications(c, nodeQualifications);
    var eligible := blockers == [] && c.coverage.Complete? && qualifications == [];
    ElemsConcat(blockers, nodeBlockers);
    blockers := blockers + nodeBlockers;
    DedupeKeeps(blockers);
    DedupeEmpty(blockers);
    DedupeEmpty(qualifications);
    hide Dedupe;
    hide Distinct;
    if |Dedupe(qualifications)| > MAX_QUALIFICATIONS {
      return Err("TOO_MANY_QUALIFICATIONS");
    }
    r := Ok(LineageValidation(blockers == [] && eligible, blockers == [], eligible, sources * Elems(sourceIds),
                              evidence * Elems(evidenceIds), Dedupe(blockers), Dedupe(qualifications)));
  }

  lemma BoundSources(c: Contract, runId: string, sourceIds: seq<string>, evidenceIds: seq<string>)
    requires Bound(c, runId, sourceIds, evidenceIds)
    ensures forall n | n in c.nodes :: n.sourceId in sourceIds
  {
    forall n | n in c.nodes
      ensures n.sourceId in sourceIds
    {
      var i :| 0 <= i < |c.nodes| && c.nodes[i] == n;
      NodeSourcesHave(c.nodes, i);
      assert n.sourceId in Elems(sourceIds);
    }
  }

  // ----- In terms of single nodes, edges and treatments -----------------------------------

  lemma {:induction false} NodeRefsAre(nodes: seq<Node>)
    ensures forall id :: id in NodeSources(nodes) <==> exists n :: n in nodes && (n.sourceId == id || id in n.posture.sourceIds)
    ensures forall id :: id in NodeEvidence(nodes) <==> exists n :: n in nodes && (id in n.evidenceIds || id in n.posture.evidenceIds)
  {
    if nodes != [] {
      NodeRefsAre(nodes[..|nodes| - 1]);
      assert nodes == nodes[..|nodes| - 1] + [nodes[|nodes| - 1]];
    }
  }

  lemma {:induction false} EdgeRefsAre(edges: seq<LineageEdge>)
    ensures forall id :: id in EdgeSources(edges) <==> exists e :: e in edges && id in e.sourceIds
    ensures forall id :: id in EdgeEvidence(edges) <==> exists e :: e in edges && id in e.evidenceIds
  {
    if edges != [] {
      EdgeRefsAre(edges[..|edges| - 1]);
      assert edges == edges[..|edges| - 1] + [edges[|edges| - 1]];
    }
  }

  lemma {:induction false} TreatmentRefsAre(ts: seq<Treatment>)
    ensures forall id :: id in TreatmentSources(ts) <==> exists t :: t in ts && id in t.sourceIds
    ensures forall id :: id in TreatmentEvidence(ts) <==> exists t :: t in ts && id in t.evidenceIds
  {
    if ts != [] {
      TreatmentRefsAre(ts[..|ts| - 1]);
      assert ts == ts[..|ts| - 1] + [ts[|ts| - 1]];
    }
  }

  /** A contract refers to a source that a node has or rests its posture on, or that an edge or a
      treatment rests on, and to evidence in the same way. */
  lemma RefsAre(c: Contract, id: string)
    ensures id in SourceRefs(c) <==>
              || (exists n | n in c.nodes :: n.sourceId == id || id in n.posture.sourceIds)
              || (exists e | e in c.edges :: id in e.sourceIds) || (exists t | t in c.treatments :: id in t.sourceIds)
    ensures id in EvidenceRefs(c) <==>
              || (exists n | n in c.nodes :: id in n.evidenceIds || id in n.posture.evidenceIds)
              || (exists e | e in c.edges :: id in e.evidenceIds) || (exists t | t in c.treatments :: id in t.evidenceIds)
  {
    NodeRefsAre(c.nodes);
    EdgeRefsAre(c.edges);
    TreatmentRefsAre(c.treatments);
    hide NodeSources;
    hide NodeEvidence;
    hide EdgeSources;
    hide EdgeEvidence;
    hide TreatmentSources;
    hide TreatmentEvidence;
  }

  /** All is known of the node: it has a role, each of its six axes is resolved, and so is its posture. */
  ghost predicate Settled(n: Node) {
    && (n.role == Holding || n.role == Procedure || n.role == OtherRole)
    && !n.axes.force && !n.axes.institution && !n.axes.adjudication && !n.axes.stage && !n.axes.temporal && !n.axes.validity
    && n.posture.resolved
  }

  /** A bound contract is eligible exactly when it is complete, without treatments or bounded misses, and
      all is known of each of its nodes. */
  lemma EligibleMeans(c: Contract, runId: string, sourceIds: seq<string>, evidenceIds: seq<string>)
    ensures Eligible(c, runId, sourceIds, evidenceIds) <==>
              && Bound(c, runId, sourceIds, evidenceIds) && c.coverage == Complete
              && c.treatments == [] && c.notFound == None && forall n | n in c.nodes :: Settled(n)
  {
    hide Bound;
  }

  /** What a node is qualified by: its role, its axes and its posture, each when it is not known. */
  lemma QualifiedMeans(n: Node)
    ensures "AUTHORITY_LINEAGE_SOURCE_ROLE_UNRESOLVED:" + n.nodeId in Qualified(n) <==> n.role == CandidateOnly || n.role == UnknownRole
    ensures "AUTHORITY_LINEAGE_AXES_UNRESOLVED:" + n.nodeId in Qualified(n) <==>
              n.axes.force || n.axes.institution || n.axes.adjudication || n.axes.stage || n.axes.temporal || n.axes.validity
    ensures "AUTHORITY_LINEAGE_PROCEDURAL_POSTURE_UNRESOLVED:" + n.nodeId in Qualified(n) <==> !n.posture.resolved
    ensures Qualified(n) == [] <==> Settled(n)
  {
    var role, axes := "AUTHORITY_LINEAGE_SOURCE_ROLE_UNRESOLVED:" + n.nodeId, "AUTHORITY_LINEAGE_AXES_UNRESOLVED:" + n.nodeId;
    var posture := "AUTHORITY_LINEAGE_PROCEDURAL_POSTURE_UNRESOLVED:" + n.nodeId;
    assert role[18] == 'S' && axes[18] == 'A' && posture[18] == 'P';
  }

  // ----- Eligibility is not structural validity -----------------------------------------

  /** Eligibility is fixed before the postures are checked, so an eligible contract can still
      be structurally invalid: exactly when some resolved posture omits its node's source. */
  lemma EligibleButUnbound(c: Contract, runId: string, sourceIds: seq<string>, evidenceIds: seq<string>)
    ensures Eligible(c, runId, sourceIds, evidenceIds) && !StructurallyValid(c, runId, sourceIds, evidenceIds) <==>
              Eligible(c, runId, sourceIds, evidenceIds) && exists n :: n in c.nodes && n.sourceId !in n.posture.sourceIds
  {
  }

  /** Such a contract exists, and it passes every graph check. */
  lemma EligibleButUnboundExample() returns (c: Contract)
    ensures GraphValid(c) && forall n | n in c.nodes :: n.Valid()
    ensures Eligible(c, "run", ["s"], []) && !StructurallyValid(c, "run", ["s"], [])
  {
    var node := Node("n", "s", Holding, Axes(false, false, false, false, false, false), Posture(true, true, [], []), []);
    c := Contract("run", true, Complete, None, [node], [], [], None, [], false, false);
    assert !Cyclic(EdgePairs([])) by {
      TopologicalIsAcyclic(EdgePairs([]), []);
    }
    assert NodeSources([node]) == {"s"} by {
      assert [node][..0] == [];
      assert Elems<string>([]) == {};
    }
    assert NodeEvidence([node]) == {} by {
      assert [node][..0] == [];
    }
    assert "s" in Elems(["s"]);
  }
}
