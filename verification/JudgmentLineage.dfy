/** Building the lineage contract of one judgment from its verified upper and lower instances. */
module JudgmentLineage {
  import opened Collections
  import opened Graphs
  import opened Sorting
  import opened AuthorityLineage

  datatype Section = Disposition | CourtView | OtherSection

  datatype Code = VacatedRemanded | VacatedReversed | UnknownCode | OtherCode(name: string)

  /** An evidence span; the codes are those its text is classified with. */
  datatype Span = Span(evidenceId: string, section: Section, eligible: bool, codes: seq<Code>)
  {
    predicate Decisive() {
      section.Disposition? && eligible
    }
  }

  datatype Document = Document(
    sourceId: string,
    officialIdentifier: Option<string>,
    providerId: string,
    courtKnown: bool,
    declaredCodes: seq<Code>)

  datatype Direction = Upper | Lower

  datatype Related = Related(direction: Direction, documentId: string, vacatedMarker: bool, source: Document, evidence: seq<Span>)

  /** The digests that turn identifiers into node ids and node pairs into edge ids. */
  datatype Digests = Digests(node: string -> string, edge: (string, string) -> string)
  {
    ghost predicate Injective() {
      && (forall a, b :: node(a) == node(b) ==> a == b)
      && (forall a, b, c, d :: edge(a, b) == edge(c, d) ==> a == c && b == d)
    }
  }

  // ----- Disposition codes --------------------------------------------------------------

  function Decisive(evidence: seq<Span>): seq<Span> {
    if evidence == [] then []
    else
      var last := evidence[|evidence| - 1];
      Decisive(evidence[..|evidence| - 1]) + (if last.Decisive() then [last] else [])
  }

  function CodesOf(evidence: seq<Span>): set<Code> {
    if evidence == [] then {} else CodesOf(evidence[..|evidence| - 1]) + Elems(evidence[|evidence| - 1].codes)
  }

  /** Without decisive evidence nothing is known; otherwise "unknown" gives way to any other code. */
  function KnownCodes(source: Document, evidence: seq<Span>): set<Code> {
    var all := Elems(source.declaredCodes) + CodesOf(Decisive(evidence));
    if Decisive(evidence) == [] || all - {UnknownCode} == {} then {UnknownCode} else all - {UnknownCode}
  }

  method AddCodes(values0: seq<Code>, codes: seq<Code>) returns (values: seq<Code>)
    requires Distinct(values0)
    ensures Distinct(values) && Elems(values) == Elems(values0) + Elems(codes)
  {
    values := values0;
    for i := 0 to |codes|
      invariant Distinct(values) && Elems(values) == Elems(values0) + Elems(codes[..i])
    {
      assert Elems(codes[..i + 1]) == Elems(codes[..i]) + {codes[i]};
      assert codes[i] in values <==> codes[i] in Elems(values);
      if codes[i] !in values {
        assert Elems(values + [codes[i]]) == Elems(values) + {codes[i]};
        values := values + [codes[i]];
      }
    }
    assert codes[..|codes|] == codes;
  }

  method RemoveUnknown(values0: seq<Code>) returns (values: seq<Code>)
    requires Distinct(values0) && UnknownCode in values0
    ensures Distinct(values) && Elems(values) == Elems(values0) - {UnknownCode}
  {
    var k := 0;
    while values0[k] != UnknownCode
      invariant 0 <= k < |values0| && UnknownCode in values0[k..]
      decreases |values0| - k
    {
      k := k + 1;
    }
    values := values0[..k] + values0[k + 1..];
    assert values0 == values0[..k] + [UnknownCode] + values0[k + 1..];
    assert Elems(values0) == Elems(values) + {UnknownCode};
  }

  /** "Unknown" stays only when there is no other code. */
  method PreferKnown(codes: seq<Code>) returns (values: seq<Code>)
    requires Distinct(codes)
    ensures Distinct(values)
    ensures Elems(values) == if Elems(codes) - {UnknownCode} == {} then {UnknownCode} else Elems(codes) - {UnknownCode}
  {
    if codes == [] {
      return [UnknownCode];
    }
    assert codes[0] in Elems(codes);
    if UnknownCode !in codes {
      assert codes[0] in Elems(codes) - {UnknownCode};
      assert Elems(codes) - {UnknownCode} == Elems(codes);
      return codes;
    }
    if |codes| == 1 {
      return codes;
    }
    assert codes[0] != codes[1] && codes[1] in Elems(codes);
    assert (if codes[0].UnknownCode? then codes[1] else codes[0]) in Elems(codes) - {UnknownCode};
    values := RemoveUnknown(codes);
  }

  method DispositionCodes(source: Document, evidence: seq<Span>) returns (values: seq<Code>)
    ensures Distinct(values) && Elems(values) == KnownCodes(source, evidence)
  {
    var decisive := Decisive(evidence);
    if decisive == [] {
      return [UnknownCode];
    }
    values := AddCodes([], source.declaredCodes);
    for i := 0 to |decisive|
      invariant Distinct(values) && Elems(values) == Elems(source.declaredCodes) + CodesOf(decisive[..i])
    {
      assert decisive[..i + 1][..i] == decisive[..i];
      values := AddCodes(values, decisive[i].codes);
    }
    assert decisive[..|decisive|] == decisive;
    hide CodesOf;
    values := PreferKnown(values);
  }

  // ----- Nodes and edges ----------------------------------------------------------------

  function EvidenceIds(evidence: seq<Span>): seq<string> {
    seq(|evidence|, i requires 0 <= i < |evidence| => evidence[i].evidenceId)
  }

  predicate HasCourtView(evidence: seq<Span>) {
    exists e | e in evidence :: (e.section.Disposition? || e.section.CourtView?) && e.eligible
  }

  /** An upper instance has its stage and posture resolved; nothing else does, and the normative
      force of a judgment is never resolved here. */
  function NodeOf(nodeId: string, source: Document, evidence: seq<Span>, upper: bool): Node {
    Node(nodeId, source.sourceId,
         if HasCourtView(evidence) then Holding else Procedure,
         Axes(true, !source.courtKnown, !upper, !upper, true, true),
         Posture(upper, upper, if upper then [source.sourceId] else [], []),
         Sort(EvidenceIds(evidence)))
  }

  function Official(source: Document, fallback: string): string {
    if source.officialIdentifier.Some? && source.officialIdentifier.value != "" then source.officialIdentifier.value else fallback
  }

  function RootIdentifier(root: Document): string {
    Official(root, root.sourceId)
  }

  function Identifier(r: Related): string {
    Official(r.source, r.documentId)
  }

  function RootId(d: Digests, root: Document): string {
    d.node(RootIdentifier(root))
  }

  function RelatedId(d: Digests, r: Related): string {
    d.node(Identifier(r))
  }

  function EdgeOf(d: Digests, root: Document, r: Related): LineageEdge {
    var rootId, id := RootId(d, root), RelatedId(d, r);
    var (fromId, toId) := if r.direction.Upper? then (id, rootId) else (rootId, id);
    LineageEdge(d.edge(fromId, toId), fromId, toId,
                Sort(if root.sourceId == r.source.sourceId then [root.sourceId] else [root.sourceId, r.source.sourceId]), [])
  }

  function Nodes(d: Digests, root: Document, rootEvidence: seq<Span>, related: seq<Related>): seq<Node> {
    [NodeOf(RootId(d, root), root, rootEvidence, false)]
    + seq(|related|, i requires 0 <= i < |related| =>
            NodeOf(RelatedId(d, related[i]), related[i].source, related[i].evidence, related[i].direction.Upper?))
  }

  function LineageEdges(d: Digests, root: Document, related: seq<Related>): seq<LineageEdge> {
    seq(|related|, i requires 0 <= i < |related| => EdgeOf(d, root, related[i]))
  }

  // ----- The reversal treatment ---------------------------------------------------------

  /** An upper instance marked as vacating whose decisive evidence says so. */
  predicate Confirms(r: Related) {
    && r.direction.Upper? && r.vacatedMarker
    && Decisive(r.evidence) != []
    && KnownCodes(r.source, r.evidence) * {VacatedRemanded, VacatedReversed} != {}
  }

  function Confirming(related: seq<Related>): seq<Related> {
    if related == [] then []
    else
      var last := related[|related| - 1];
      Confirming(related[..|related| - 1]) + (if Confirms(last) then [last] else [])
  }

  function IdsOf(d: Digests, related: seq<Related>): seq<string> {
    seq(|related|, i requires 0 <= i < |related| => RelatedId(d, related[i]))
  }

  function SourceIdsOf(related: seq<Related>): seq<string> {
    seq(|related|, i requires 0 <= i < |related| => related[i].source.sourceId)
  }

  function DecisiveIds(related: seq<Related>): seq<string> {
    if related == [] then []
    else DecisiveIds(related[..|related| - 1]) + EvidenceIds(Decisive(related[|related| - 1].evidence))
  }

  function Treatments(d: Digests, root: Document, related: seq<Related>): seq<Treatment> {
    var confirming := Confirming(related);
    if confirming == [] then []
    else
      [Treatment(RootId(d, root), Reversed, IdsOf(d, confirming), None,
                 Sort(SourceIdsOf(confirming)), Sort(DecisiveIds(confirming)),
                 ["TLR_UPPER_VACATED_MARKER", "OFFICIAL_UPPER_DISPOSITION_CONFIRMED"], false, false)]
  }

  // ----- The contract -------------------------------------------------------------------

  function Limitations(historyPresent: bool): seq<string> {
    ["TLR_CASE_HISTORY_DATABASE_RECORDED_ONLY",
     "NO_UPPER_HISTORY_DOES_NOT_ESTABLISH_FINALITY",
     "TLR_CASE_HISTORY_RELATION_GRANULARITY_BOUNDED",
     "SEMANTIC_OPINION_COMPARISON_NOT_PERFORMED"]
    + if historyPresent then [] else ["TLR_CASE_HISTORY_FIELD_MISSING"]
  }

  function ProvidersOf(root: Document, related: seq<Related>): seq<string> {
    ["tlr_semantic_recall", root.providerId] + seq(|related|, i requires 0 <= i < |related| => related[i].source.providerId)
  }

  function LineageContract(d: Digests, runId: string, root: Document, rootEvidence: seq<Span>, historyPresent: bool,
                           related: seq<Related>, maxRelated: nat): Contract {
    Contract(runId, true, PartialCoverage,
             Some(Scope(Sort(Dedupe(ProvidersOf(root, related))), maxRelated + 1, false, false)),
             Nodes(d, root, rootEvidence, related), LineageEdges(d, root, related), Treatments(d, root, related),
             None, Limitations(historyPresent), false, false)
  }

  predicate NodeReady(source: Document, evidence: seq<Span>) {
    AllUnique(EvidenceIds(evidence)) && source.sourceId !in EvidenceIds(evidence) && |evidence| <= MAX_EVIDENCE
  }

  ghost predicate DistinctDecisions(d: Digests, root: Document, related: seq<Related>) {
    RootId(d, root) !in IdsOf(d, related) && Distinct(IdsOf(d, related))
  }

  function Lowers(related: seq<Related>): nat {
    if related == [] then 0
    else Lowers(related[..|related| - 1]) + if related[|related| - 1].direction.Upper? then 0 else 1
  }

  /** How many qualifications the validation of the contract reports: its coverage, the axes of
      every node, the posture of every node that is not an upper instance, and a treatment. */
  function QualificationCount(related: seq<Related>): nat {
    3 + |related| + Lowers(related) + if Confirming(related) == [] then 0 else 1
  }

  /** The list limits of scope, treatment and validation record. */
  predicate Sized(root: Document, related: seq<Related>, maxRelated: nat) {
    && |Dedupe(ProvidersOf(root, related))| <= 32 && maxRelated < 512
    && |DecisiveIds(Confirming(related))| <= MAX_EVIDENCE
    && QualificationCount(related) <= MAX_QUALIFICATIONS
  }

  /** Exactly what building the contract needs. */
  ghost predicate Buildable(d: Digests, root: Document, rootEvidence: seq<Span>, related: seq<Related>, maxRelated: nat) {
    && DistinctDecisions(d, root, related)
    && NodeReady(root, rootEvidence) && (forall r | r in related :: NodeReady(r.source, r.evidence))
    && Distinct(SourceIdsOf(Confirming(related))) && Distinct(DecisiveIds(Confirming(related)))
    && (forall p | p in ProvidersOf(root, related) :: !Blank(p))
    && Sized(root, related, maxRelated)
  }

  function ServerSources(root: Document, related: seq<Related>): seq<string> {
    [root.sourceId] + SourceIdsOf(related)
  }

  function RelatedEvidence(related: seq<Related>): seq<string> {
    if related == [] then []
    else RelatedEvidence(related[..|related| - 1]) + EvidenceIds(related[|related| - 1].evidence)
  }

  function ServerEvidence(rootEvidence: seq<Span>, related: seq<Related>): seq<string> {
    EvidenceIds(rootEvidence) + RelatedEvidence(related)
  }

  // ----- The graph is a star ------------------------------------------------------------

  /** Upper instances rank below the hub, the hub below lower instances. */
  function Rank(hub: string, upper: set<string>, x: string): nat {
    if x in upper then 0 else if x == hub then 1 else 2
  }

  ghost predicate IsStar(edges: set<Edge>, hub: string, upper: set<string>, lower: set<string>) {
    && hub !in upper && hub !in lower && upper !! lower
    && forall e | e in edges :: (e.0 in upper && e.1 == hub) || (e.0 == hub && e.1 in lower)
  }

  lemma {:induction false} RanksRise(edges: set<Edge>, hub: string, upper: set<string>, lower: set<string>, p: seq<string>)
    requires IsStar(edges, hub, upper, lower) && IsPath(edges, p) && |p| > 1
    ensures Rank(hub, upper, p[0]) < Rank(hub, upper, p[|p| - 1])
  {
    assert (p[|p| - 2], p[|p| - 1]) in edges;
    if |p| > 2 {
      var q := p[..|p| - 1];
      assert IsPath(edges, q) by {
        forall i | 0 <= i < |q| - 1
          ensures (q[i], q[i + 1]) in edges
        {
          assert (p[i], p[i + 1]) in edges;
        }
      }
      RanksRise(edges, hub, upper, lower, q);
    }
  }

  /** A star whose upper rim only points in and whose lower rim only is pointed at has no cycle. */
  lemma StarIsAcyclic(edges: set<Edge>, hub: string, upper: set<string>, lower: set<string>)
    requires IsStar(edges, hub, upper, lower)
    ensures !Cyclic(edges)
  {
    forall p
      ensures !IsCycle(edges, p)
    {
      if IsPath(edges, p) && |p| > 1 {
        RanksRise(edges, hub, upper, lower, p);
        assert p[0] != p[|p| - 1];
      }
    }
  }

  ghost function Rim(d: Digests, related: seq<Related>, direction: Direction): set<string> {
    set i | 0 <= i < |related| && related[i].direction == direction :: RelatedId(d, related[i])
  }

  lemma IdAt(d: Digests, related: seq<Related>, i: nat)
    requires i < |related|
    ensures IdsOf(d, related)[i] == RelatedId(d, related[i]) && RelatedId(d, related[i]) in IdsOf(d, related)
  {
    assert IdsOf(d, related)[i] in IdsOf(d, related);
  }

  lemma RimsAreDisjoint(d: Digests, related: seq<Related>)
    requires Distinct(IdsOf(d, related))
    ensures Rim(d, related, Upper) !! Rim(d, related, Lower)
  {
    hide RelatedId;
    forall i, j | 0 <= i < |related| && 0 <= j < |related| && related[i].direction == Upper && related[j].direction == Lower
      ensures RelatedId(d, related[i]) != RelatedId(d, related[j])
    {
      assert i != j;
      assert IdsOf(d, related)[i] != IdsOf(d, related)[j];
    }
  }

  lemma LineageIsStar(d: Digests, root: Document, related: seq<Related>)
    requires DistinctDecisions(d, root, related)
    ensures IsStar(EdgePairs(LineageEdges(d, root, related)), RootId(d, root), Rim(d, related, Upper), Rim(d, related, Lower))
  {
    var edges := LineageEdges(d, root, related);
    RimsAreDisjoint(d, related);
    hide RootId;
    hide RelatedId;
    hide Sort;
    forall i | 0 <= i < |related|
      ensures RelatedId(d, related[i]) != RootId(d, root)
    {
      IdAt(d, related, i);
    }
    forall e | e in EdgePairs(edges)
      ensures (e.0 in Rim(d, related, Upper) && e.1 == RootId(d, root)) || (e.0 == RootId(d, root) && e.1 in Rim(d, related, Lower))
    {
      var le :| le in edges && e == (le.fromId, le.toId);
      var i :| 0 <= i < |edges| && edges[i] == le;
      assert le == EdgeOf(d, root, related[i]);
    }
  }

  lemma LineageIsAcyclic(d: Digests, root: Document, related: seq<Related>)
    requires DistinctDecisions(d, root, related)
    ensures !Cyclic(EdgePairs(LineageEdges(d, root, related)))
  {
    LineageIsStar(d, root, related);
    StarIsAcyclic(EdgePairs(LineageEdges(d, root, related)), RootId(d, root), Rim(d, related, Upper), Rim(d, related, Lower));
  }

  lemma NodeIdsAre(d: Digests, root: Document, rootEvidence: seq<Span>, related: seq<Related>)
    ensures NodeIds(Nodes(d, root, rootEvidence, related)) == [RootId(d, root)] + IdsOf(d, related)
  {
    var nodes := Nodes(d, root, rootEvidence, related);
    hide RootId;
    hide RelatedId;
    hide HasCourtView;
    hide Sort;
    hide EvidenceIds;
    forall i | 0 <= i < |related|
      ensures NodeIds(nodes)[i + 1] == IdsOf(d, related)[i]
    {
      assert nodes[i + 1].nodeId == RelatedId(d, related[i]);
    }
  }

  lemma DistinctCons(x: string, s: seq<string>)
    ensures Distinct([x] + s) <==> x !in s && Distinct(s)
  {
    var all := [x] + s;
    assert forall i | 0 <= i < |s| :: all[i + 1] == s[i];
    if Distinct(all) {
      forall i | 0 <= i < |s|
        ensures s[i] != x
      {
        assert all[0] != all[i + 1];
      }
      forall i, j | 0 <= i < j < |s|
        ensures s[i] != s[j]
      {
        assert all[i + 1] != all[j + 1];
      }
    }
  }

  lemma NodeIdsDistinct(d: Digests, root: Document, rootEvidence: seq<Span>, related: seq<Related>)
    ensures Distinct(NodeIds(Nodes(d, root, rootEvidence, related))) <==> DistinctDecisions(d, root, related)
  {
    NodeIdsAre(d, root, rootEvidence, related);
    DistinctCons(RootId(d, root), IdsOf(d, related));
    hide Nodes;
    hide NodeIds;
    hide RootId;
    hide IdsOf;
    hide Distinct;
  }

  lemma EdgeIdsDistinct(d: Digests, root: Document, related: seq<Related>)
    requires d.Injective() && DistinctDecisions(d, root, related)
    ensures Distinct(EdgeIds(LineageEdges(d, root, related)))
  {
    hide RootId;
    hide RelatedId;
    hide Sort;
    var edges, ids := LineageEdges(d, root, related), IdsOf(d, related);
    forall i, j | 0 <= i < j < |related|
      ensures edges[i].edgeId != edges[j].edgeId
    {
      assert ids[i] != ids[j] && ids[i] in ids && ids[j] in ids;
    }
  }

  lemma {:induction false} ConfirmingIsPart(related: seq<Related>)
    ensures forall r | r in Confirming(related) :: r in related && Confirms(r)
  {
    hide Confirms;
    if related != [] {
      ConfirmingIsPart(related[..|related| - 1]);
    }
  }

  lemma TreatmentsAreKnown(d: Digests, root: Document, rootEvidence: seq<Span>, related: seq<Related>)
    ensures forall t | t in Treatments(d, root, related) ::
              && t.target in [RootId(d, root)] + IdsOf(d, related)
              && forall n | n in t.treating :: n in [RootId(d, root)] + IdsOf(d, related)
  {
    var confirming := Confirming(related);
    ConfirmingIsPart(related);
    hide RootId;
    hide RelatedId;
    hide Confirming;
    forall n | n in IdsOf(d, confirming)
      ensures n in IdsOf(d, related)
    {
      var i :| 0 <= i < |confirming| && IdsOf(d, confirming)[i] == n;
      assert confirming[i] in confirming;
      var j :| 0 <= j < |related| && related[j] == confirming[i];
      IdAt(d, related, j);
    }
  }

  lemma EndpointsAre(d: Digests, root: Document, related: seq<Related>)
    ensures forall e | e in LineageEdges(d, root, related) ::
              e.fromId in [RootId(d, root)] + IdsOf(d, related) && e.toId in [RootId(d, root)] + IdsOf(d, related)
  {
    var edges := LineageEdges(d, root, related);
    hide RootId;
    hide RelatedId;
    hide Sort;
    forall e | e in edges
      ensures e.fromId in [RootId(d, root)] + IdsOf(d, related) && e.toId in [RootId(d, root)] + IdsOf(d, related)
    {
      var i :| 0 <= i < |edges| && edges[i] == e;
      IdAt(d, related, i);
      assert e == EdgeOf(d, root, related[i]);
      assert RootId(d, root) in [RootId(d, root)];
    }
  }

  lemma LimitationsDistinct(historyPresent: bool)
    ensures Distinct(Limitations(historyPresent))
  {
  }

  /** The contract passes every graph check exactly when the decisions have distinct nodes. */
  lemma LineageGraphValid(d: Digests, runId: string, root: Document, rootEvidence: seq<Span>, historyPresent: bool,
                          related: seq<Related>, maxRelated: nat)
    requires d.Injective()
    ensures GraphValid(LineageContract(d, runId, root, rootEvidence, historyPresent, related, maxRelated)) <==>
              DistinctDecisions(d, root, related)
  {
    var c := LineageContract(d, runId, root, rootEvidence, historyPresent, related, maxRelated);
    NodeIdsDistinct(d, root, rootEvidence, related);
    if DistinctDecisions(d, root, related) {
      NodeIdsAre(d, root, rootEvidence, related);
      EndpointsAre(d, root, related);
      TreatmentsAreKnown(d, root, rootEvidence, related);
      EdgeIdsDistinct(d, root, related);
      LineageIsAcyclic(d, root, related);
      LimitationsDistinct(historyPresent);
    }
    hide DistinctDecisions;
    hide Distinct;
    hide Nodes;
    hide NodeIds;
    hide EdgeIds;
    hide LineageEdges;
    hide Treatments;
    hide Limitations;
    hide Cyclic;
    hide RootId;
    hide IdsOf;
    hide Sort;
    hide Dedupe;
    hide ProvidersOf;
    hide EdgePairs;
  }

  // ----- Building -----------------------------------------------------------------------

  lemma NodeIsValid(nodeId: string, source: Document, evidence: seq<Span>, upper: bool)
    ensures NodeOf(nodeId, source, evidence, upper).Valid() <==> NodeReady(source, evidence)
  {
    SortSorts(EvidenceIds(evidence));
    SortKeepsDistinct(EvidenceIds(evidence));
    assert source.sourceId in EvidenceIds(evidence) <==> source.sourceId in Elems(EvidenceIds(evidence));
    assert source.sourceId in Sort(EvidenceIds(evidence)) <==> source.sourceId in Elems(Sort(EvidenceIds(evidence)));
    hide Sort;
    hide Ascending;
    hide EvidenceIds;
    hide HasCourtView;
  }

  lemma EdgeIsValid(d: Digests, root: Document, r: Related)
    ensures EdgeOf(d, root, r).Valid() <==> RelatedId(d, r) != RootId(d, root)
  {
    SortKeepsDistinct([root.sourceId]);
    SortKeepsDistinct([root.sourceId, r.source.sourceId]);
    SortSorts([root.sourceId]);
    SortSorts([root.sourceId, r.source.sourceId]);
    hide Sort;
    hide RelatedId;
    hide RootId;
  }

  lemma {:induction false} ConfirmingIdsDistinct(d: Digests, related: seq<Related>)
    requires Distinct(IdsOf(d, related))
    ensures Distinct(IdsOf(d, Confirming(related)))
    ensures forall n | n in IdsOf(d, Confirming(related)) :: n in IdsOf(d, related)
  {
    hide RelatedId;
    hide Confirms;
    hide Distinct;
    hide IdsOf;
    if related == [] {
    } else {
      var rest, last := related[..|related| - 1], related[|related| - 1];
      var confirming := Confirming(rest);
      assert related == rest + [last];
      IdsAppend(d, rest, last);
      DistinctAppend(IdsOf(d, rest), RelatedId(d, last));
      ConfirmingIdsDistinct(d, rest);
      IdsAppend(d, confirming, last);
      DistinctAppend(IdsOf(d, confirming), RelatedId(d, last));
      assert Confirming(related) == if Confirms(last) then confirming + [last] else confirming;
    }
  }

  predicate TreatmentReady(t: Treatment) {
    && AllUnique(t.treating) && AllUnique(t.sourceIds) && AllUnique(t.evidenceIds)
    && |t.treating| <= 64 && |t.sourceIds| <= 64 && |t.evidenceIds| <= MAX_EVIDENCE
  }

  lemma TreatmentIsValid(t: Treatment)
    requires t.status.Reversed? && t.treating != [] && t.reasons == ["TLR_UPPER_VACATED_MARKER", "OFFICIAL_UPPER_DISPOSITION_CONFIRMED"]
    ensures t.Valid() <==> TreatmentReady(t)
  {
    assert "TLR_UPPER_VACATED_MARKER"[0] != "OFFICIAL_UPPER_DISPOSITION_CONFIRMED"[0];
  }

  lemma TreatmentsAreReady(d: Digests, root: Document, related: seq<Related>)
    requires Distinct(IdsOf(d, related))
    ensures (forall t | t in Treatments(d, root, related) :: TreatmentReady(t)) <==>
              && Distinct(SourceIdsOf(Confirming(related))) && Distinct(DecisiveIds(Confirming(related)))
              && |Confirming(related)| <= 64 && |DecisiveIds(Confirming(related))| <= MAX_EVIDENCE
    ensures (forall t | t in Treatments(d, root, related) :: TreatmentReady(t)) <==>
            (forall t | t in Treatments(d, root, related) :: t.Valid())
  {
    var confirming := Confirming(related);
    ConfirmingIdsDistinct(d, related);
    SortKeepsDistinct(SourceIdsOf(confirming));
    SortKeepsDistinct(DecisiveIds(confirming));
    SortSorts(SourceIdsOf(confirming));
    SortSorts(DecisiveIds(confirming));
    if confirming != [] {
      assert IdsOf(d, confirming) != [];
      var t := Treatments(d, root, related)[0];
      TreatmentIsValid(t);
      assert Treatments(d, root, related) == [t];
      assert t in [t];
    } else {
      assert SourceIdsOf(confirming) == [] && DecisiveIds(confirming) == [];
    }
    hide Sort;
    hide Confirming;
    hide RootId;
    hide RelatedId;
    hide Distinct;
  }

  /** One pass over the related decisions: their nodes and edges, and a dictionary by node id. */
  method ReadRelated(d: Digests, root: Document, rootEvidence: seq<Span>, related: seq<Related>)
    returns (ok: bool, nodes: seq<Node>, edges: seq<LineageEdge>, byNode: map<string, Related>, order: seq<string>)
    ensures ok <==> NodeReady(root, rootEvidence) && (forall r | r in related :: NodeReady(r.source, r.evidence)) &&
                    RootId(d, root) !in IdsOf(d, related)
    ensures ok ==> nodes == Nodes(d, root, rootEvidence, related) && edges == LineageEdges(d, root, related)
    ensures ok ==> (forall n :: n in order <==> n in byNode)
    ensures ok ==> Listed(d, related, byNode, order)
  {
    hide NodeReady;
    hide RootId;
    hide RelatedId;
    hide NodeOf;
    hide EdgeOf;
    nodes, edges, byNode, order := [NodeOf(RootId(d, root), root, rootEvidence, false)], [], map[], [];
    if !NodeReady(root, rootEvidence) {
      return false, nodes, edges, byNode, order;
    }
    for i := 0 to |related|
      invariant nodes == Nodes(d, root, rootEvidence, related[..i]) && edges == LineageEdges(d, root, related[..i])
      invariant forall r | r in related[..i] :: NodeReady(r.source, r.evidence)
      invariant RootId(d, root) !in IdsOf(d, related[..i])
      invariant forall n :: n in order <==> n in byNode
      invariant Listed(d, related[..i], byNode, order)
    {
      var r := related[i];
      var id := RelatedId(d, r);
      assert related[..i + 1] == related[..i] + [r];
      IdsAppend(d, related[..i], r);
      ListedAppend(d, related[..i], r, byNode, order);
      if !NodeReady(r.source, r.evidence) || id == RootId(d, root) {
        assert r in related;
        IdAt(d, related, i);
        return false, nodes, edges, byNode, order;
      }
      order := if id in byNode then order else order + [id];
      byNode := byNode[id := r];
      nodes := nodes + [NodeOf(id, r.source, r.evidence, r.direction.Upper?)];
      edges := edges + [EdgeOf(d, root, r)];
    }
    assert related[..|related|] == related;
    ok := true;
  }

  lemma IdsAppend(d: Digests, related: seq<Related>, r: Related)
    ensures IdsOf(d, related + [r]) == IdsOf(d, related) + [RelatedId(d, r)]
  {
    hide RelatedId;
  }

  /** While the ids are distinct, the dictionary holds the decisions in their own order. */
  ghost predicate Listed(d: Digests, related: seq<Related>, byNode: map<string, Related>, order: seq<string>) {
    Distinct(IdsOf(d, related)) ==>
      && order == IdsOf(d, related)
      && byNode.Keys == Elems(order)
      && forall i | 0 <= i < |related| :: order[i] in byNode && byNode[order[i]] == related[i]
  }

  lemma ListedAppend(d: Digests, related: seq<Related>, r: Related, byNode: map<string, Related>, order: seq<string>)
    requires Listed(d, related, byNode, order)
    ensures var id := RelatedId(d, r);
            Listed(d, related + [r], byNode[id := r], if id in byNode then order else order + [id])
  {
    hide RelatedId;
    var id := RelatedId(d, r);
    IdsAppend(d, related, r);
    var ids := IdsOf(d, related + [r]);
    if Distinct(ids) {
      assert ids[..|related|] == IdsOf(d, related);
      assert Distinct(IdsOf(d, related));
      assert id !in IdsOf(d, related) by {
        assert forall i | 0 <= i < |related| :: ids[i] != ids[|related|];
      }
      assert Elems(order + [id]) == Elems(order) + {id};
      assert byNode[id := r].Keys == byNode.Keys + {id};
      forall i | 0 <= i < |related| + 1
        ensures ids[i] in byNode[id := r] && byNode[id := r][ids[i]] == (related + [r])[i]
      {
        assert i < |related| ==> order[i] in byNode && ids[i] != id;
      }
    }
  }

  /** Whether the official disposition of an upper instance confirms the vacated marker. */
  method IsConfirmed(item: Related) returns (yes: bool)
    ensures yes <==> Confirms(item)
  {
    ConfirmsMeans(item);
    hide Confirms;
    yes := false;
    if item.direction.Upper? && item.vacatedMarker {
      var codes := DispositionCodes(item.source, item.evidence);
      yes := Decisive(item.evidence) != [] && Elems(codes) * {VacatedRemanded, VacatedReversed} != {};
    }
  }

  /** The upper instances whose official disposition confirms the vacated marker. */
  method ConfirmedReversals(byNode: map<string, Related>, order: seq<string>) returns (confirmed: seq<string>)
    requires forall n | n in order :: n in byNode
    ensures forall n | n in confirmed :: n in byNode
    ensures forall d, related | Listed(d, related, byNode, order) && Distinct(IdsOf(d, related)) ::
              confirmed == IdsOf(d, Confirming(related))
              && forall i | 0 <= i < |confirmed| :: byNode[confirmed[i]] == Confirming(related)[i]
  {
    hide Confirms;
    hide RelatedId;
    confirmed := [];
    ghost var reached: seq<Related> := [];
    for i := 0 to |order|
      invariant forall n | n in confirmed :: n in byNode && n in order
      invariant |reached| == i && forall j | 0 <= j < i :: byNode[order[j]] == reached[j]
      invariant |confirmed| == |Confirming(reached)|
      invariant forall j | 0 <= j < |confirmed| :: byNode[confirmed[j]] == Confirming(reached)[j]
    {
      var item := byNode[order[i]];
      assert (reached + [item])[..i] == reached;
      var yes := IsConfirmed(item);
      if yes {
        confirmed := confirmed + [order[i]];
      }
      reached := reached + [item];
    }
    hide Confirming;
    forall d, related | Listed(d, related, byNode, order) && Distinct(IdsOf(d, related))
      ensures confirmed == IdsOf(d, Confirming(related))
      ensures forall i | 0 <= i < |confirmed| :: byNode[confirmed[i]] == Confirming(related)[i]
    {
      ReachedAll(d, related, byNode, order, reached);
      ConfirmedAre(d, related, byNode, order, confirmed);
    }
  }

  lemma ReachedAll(d: Digests, related: seq<Related>, byNode: map<string, Related>, order: seq<string>, reached: seq<Related>)
    requires Listed(d, related, byNode, order) && Distinct(IdsOf(d, related))
    requires (forall n | n in order :: n in byNode) && |reached| == |order|
    requires forall j | 0 <= j < |order| :: byNode[order[j]] == reached[j]
    ensures reached == related
  {
    hide RelatedId;
    hide Distinct;
  }

  lemma ConfirmedAre(d: Digests, related: seq<Related>, byNode: map<string, Related>, order: seq<string>, confirmed: seq<string>)
    requires Listed(d, related, byNode, order) && Distinct(IdsOf(d, related))
    requires forall n | n in confirmed :: n in byNode && n in order
    requires |confirmed| == |Confirming(related)| && forall j | 0 <= j < |confirmed| :: byNode[confirmed[j]] == Confirming(related)[j]
    ensures confirmed == IdsOf(d, Confirming(related))
  {
    hide RelatedId;
    hide Confirming;
    hide Distinct;
    forall i | 0 <= i < |confirmed|
      ensures confirmed[i] == RelatedId(d, Confirming(related)[i])
    {
      assert confirmed[i] in confirmed;
      var k :| 0 <= k < |order| && order[k] == confirmed[i];
      assert order[k] == RelatedId(d, related[k]) && byNode[order[k]] == related[k];
    }
  }

  lemma ConfirmsMeans(r: Related)
    ensures Confirms(r) <==>
              && r.direction.Upper? && r.vacatedMarker && Decisive(r.evidence) != []
              && KnownCodes(r.source, r.evidence) * {VacatedRemanded, VacatedReversed} != {}
  {
  }

  /** The one treatment record, when some upper instance is confirmed to have reversed. */
  method ReversalTreatments(rootId: string, byNode: map<string, Related>, confirmed: seq<string>) returns (treatments: seq<Treatment>)
    requires forall n | n in confirmed :: n in byNode
    ensures forall d, root, related | RootId(d, root) == rootId && confirmed == IdsOf(d, Confirming(related))
              && (forall i | 0 <= i < |confirmed| :: byNode[confirmed[i]] == Confirming(related)[i]) ::
              treatments == Treatments(d, root, related)
  {
    hide RootId;
    hide RelatedId;
    hide Confirming;
    hide DecisiveIds;
    hide Sort;
    if confirmed == [] {
      return [];
    }
    var treating := seq(|confirmed|, i requires 0 <= i < |confirmed| => byNode[confirmed[i]]);
    forall d: Digests, related | confirmed == IdsOf(d, Confirming(related))
              && (forall i | 0 <= i < |confirmed| :: byNode[confirmed[i]] == Confirming(related)[i])
      ensures treating == Confirming(related)
    {
    }
    treatments :=
      [Treatment(rootId, Reversed, confirmed, None, Sort(SourceIdsOf(treating)), Sort(DecisiveIds(treating)),
                 ["TLR_UPPER_VACATED_MARKER", "OFFICIAL_UPPER_DISPOSITION_CONFIRMED"], false, false)];
  }

  /** Every record of a buildable contract passes its own validator. */
  lemma BuiltIsValid(d: Digests, runId: string, root: Document, rootEvidence: seq<Span>, historyPresent: bool,
                     related: seq<Related>, maxRelated: nat)
    requires Buildable(d, root, rootEvidence, related, maxRelated)
    ensures var c := LineageContract(d, runId, root, rootEvidence, historyPresent, related, maxRelated);
            && (forall n | n in c.nodes :: n.Valid()) && (forall e | e in c.edges :: e.Valid())
            && (forall t | t in c.treatments :: t.Valid()) && c.scope.value.Valid()
  {
    NodesAreValid(d, root, rootEvidence, related);
    EdgesAreValid(d, root, related);
    TreatmentsAreReady(d, root, related);
    ConfirmingFits(root, related, maxRelated);
    ScopeIsValid(root, related);
    hide Nodes;
    hide LineageEdges;
    hide Treatments;
    hide NodeReady;
    hide TreatmentReady;
    hide Confirming;
    hide DecisiveIds;
    hide ProvidersOf;
    hide Distinct;
    hide Sort;
    hide Dedupe;
  }

  lemma NodesAreValid(d: Digests, root: Document, rootEvidence: seq<Span>, related: seq<Related>)
    requires NodeReady(root, rootEvidence) && forall r | r in related :: NodeReady(r.source, r.evidence)
    ensures forall n | n in Nodes(d, root, rootEvidence, related) :: n.Valid()
  {
    hide NodeReady;
    hide NodeOf;
    hide RootId;
    hide RelatedId;
    var nodes := Nodes(d, root, rootEvidence, related);
    forall n | n in nodes
      ensures n.Valid()
    {
      var i :| 0 <= i < |nodes| && nodes[i] == n;
      if i == 0 {
        NodeIsValid(RootId(d, root), root, rootEvidence, false);
      } else {
        var r := related[i - 1];
        NodeIsValid(RelatedId(d, r), r.source, r.evidence, r.direction.Upper?);
      }
    }
  }

  lemma EdgesAreValid(d: Digests, root: Document, related: seq<Related>)
    requires RootId(d, root) !in IdsOf(d, related)
    ensures forall e | e in LineageEdges(d, root, related) :: e.Valid()
  {
    hide RootId;
    hide RelatedId;
    hide EdgeOf;
    var edges := LineageEdges(d, root, related);
    forall e | e in edges
      ensures e.Valid()
    {
      var i :| 0 <= i < |edges| && edges[i] == e;
      IdAt(d, related, i);
      EdgeIsValid(d, root, related[i]);
    }
  }

  lemma {:induction false} ConfirmingIsShort(related: seq<Related>)
    ensures |Confirming(related)| <= |related|
  {
    hide Confirms;
    if related != [] {
      ConfirmingIsShort(related[..|related| - 1]);
    }
  }

  lemma ConfirmingFits(root: Document, related: seq<Related>, maxRelated: nat)
    ensures Sized(root, related, maxRelated) ==> |Confirming(related)| <= 64
  {
    ConfirmingIsShort(related);
    hide Confirming;
    hide ProvidersOf;
    hide DecisiveIds;
    hide Lowers;
  }

  lemma ScopeIsValid(root: Document, related: seq<Related>)
    requires forall p | p in ProvidersOf(root, related) :: !Blank(p)
    ensures var providers := Sort(Dedupe(ProvidersOf(root, related)));
            && providers != [] && Distinct(providers) && (forall p | p in providers :: !Blank(p))
            && |providers| == |Dedupe(ProvidersOf(root, related))|
  {
    var all := ProvidersOf(root, related);
    assert all != [];
    hide ProvidersOf;
    DedupeEmpty(all);
    SortKeepsDistinct(Dedupe(all));
    SortSorts(Dedupe(all));
    forall p | p in Sort(Dedupe(all))
      ensures p in all
    {
      assert p in Elems(Sort(Dedupe(all)));
    }
    hide Sort;
    hide Dedupe;
    hide Blank;
  }

  // ----- The qualifications of the contract ---------------------------------------------

  lemma NodeQualificationsAre(nodeId: string, source: Document, evidence: seq<Span>, upper: bool)
    ensures |Qualified(NodeOf(nodeId, source, evidence, upper))| == if upper then 1 else 2
  {
    hide Sort;
    hide HasCourtView;
    hide EvidenceIds;
  }

  lemma {:induction false} NodesQualifiedCount(d: Digests, root: Document, rootEvidence: seq<Span>, related: seq<Related>)
    ensures |NodesQualified(Nodes(d, root, rootEvidence, related))| == 2 + |related| + Lowers(related)
  {
    hide NodeOf;
    hide RootId;
    hide RelatedId;
    hide Qualified;
    var nodes := Nodes(d, root, rootEvidence, related);
    if related == [] {
      var first := NodeOf(RootId(d, root), root, rootEvidence, false);
      NodeQualificationsAre(RootId(d, root), root, rootEvidence, false);
      assert nodes == [first] && [first][..0] == [];
      assert NodesQualified([first]) == NodesQualified([]) + Qualified(first);
    } else {
      var rest, last := related[..|related| - 1], related[|related| - 1];
      NodesQualifiedCount(d, root, rootEvidence, rest);
      NodeQualificationsAre(RelatedId(d, last), last.source, last.evidence, last.direction.Upper?);
      assert nodes[..|nodes| - 1] == Nodes(d, root, rootEvidence, rest);
      assert nodes[|nodes| - 1] == NodeOf(RelatedId(d, last), last.source, last.evidence, last.direction.Upper?);
    }
  }

  const INCOMPLETE := "AUTHORITY_LINEAGE_COVERAGE_INCOMPLETE"
  const UNCLASSIFIED := "NEGATIVE_TREATMENT_SEMANTIC_CLASSIFICATION_NOT_PERFORMED"

  lemma NeitherQualifies(q: string)
    requires |q| > 18 && q[18] in {'S', 'A', 'P'}
    ensures q != INCOMPLETE && q != UNCLASSIFIED
  {
    assert INCOMPLETE[18] == 'C' && UNCLASSIFIED[18] == '_';
  }

  lemma CodesDiffer()
    ensures INCOMPLETE != UNCLASSIFIED
  {
    assert |INCOMPLETE| != |UNCLASSIFIED|;
  }

  lemma NeverAmong(qualified: seq<string>)
    requires forall q | q in qualified :: |q| > 18 && q[18] in {'S', 'A', 'P'}
    ensures INCOMPLETE !in qualified && UNCLASSIFIED !in qualified && INCOMPLETE != UNCLASSIFIED
  {
    forall q | q in qualified
      ensures q != INCOMPLETE && q != UNCLASSIFIED
    {
      NeitherQualifies(q);
    }
    CodesDiffer();
  }

  lemma Surrounded(first: string, qualified: seq<string>, last: string, treated: bool)
    requires Distinct(qualified) && first !in qualified && last !in qualified && first != last
    ensures var all := if treated then [first] + qualified + [last] else [first] + qualified;
            |Dedupe(all)| == 1 + |qualified| + if treated then 1 else 0
  {
    var all := if treated then [first] + qualified + [last] else [first] + qualified;
    DistinctCons(first, qualified);
    DistinctAppend([first] + qualified, last);
    hide Distinct;
    DedupeKeeps(all);
    hide Dedupe;
  }

  /** The qualifications of a partial contract that misses nothing. */
  lemma PartialQualifications(c: Contract)
    requires c.coverage.PartialCoverage? && c.notFound.None?
    ensures QualificationsOf(c) == if c.treatments != [] then [INCOMPLETE] + NodesQualified(c.nodes) + [UNCLASSIFIED]
                                   else [INCOMPLETE] + NodesQualified(c.nodes)
  {
    hide NodesQualified;
  }

  lemma PartialAreDistinct(c: Contract)
    requires c.coverage.PartialCoverage? && c.notFound.None? && Distinct(NodeIds(c.nodes))
    ensures |Dedupe(QualificationsOf(c))| == 1 + |NodesQualified(c.nodes)| + if c.treatments != [] then 1 else 0
  {
    hide Distinct;
    hide Dedupe;
    hide QualificationsOf;
    hide NodesQualified;
    NodesQualifiedAre(c.nodes);
    NeverAmong(NodesQualified(c.nodes));
    PartialQualifications(c);
    Surrounded(INCOMPLETE, NodesQualified(c.nodes), UNCLASSIFIED, c.treatments != []);
  }

  /** No qualification is reported twice, so the limit is met by their plain count. */
  lemma QualificationsCounted(d: Digests, runId: string, root: Document, rootEvidence: seq<Span>, historyPresent: bool,
                              related: seq<Related>, maxRelated: nat)
    requires DistinctDecisions(d, root, related)
    ensures |Dedupe(QualificationsOf(LineageContract(d, runId, root, rootEvidence, historyPresent, related, maxRelated)))|
            == QualificationCount(related)
  {
    NodeIdsDistinct(d, root, rootEvidence, related);
    NodesQualifiedCount(d, root, rootEvidence, related);
    PartialAreDistinct(LineageContract(d, runId, root, rootEvidence, historyPresent, related, maxRelated));
    hide NodesQualified;
    hide NodeIds;
    hide Nodes;
    hide LineageEdges;
    hide Sort;
    hide ProvidersOf;
    hide Confirming;
    hide Distinct;
    hide DistinctDecisions;
    hide QualificationsOf;
    hide Dedupe;
    hide Lowers;
    hide RootId;
    hide DecisiveIds;
    hide SourceIdsOf;
    hide IdsOf;
    hide Limitations;
  }

  // ----- The whole construction ---------------------------------------------------------

  datatype Built = Built(contract: Contract, validation: LineageValidation)

  /** The construction fails exactly when a validator or a list limit on the way, the graph check,
      or the validation at the end does. */
  method BuildLineage(d: Digests, runId: string, root: Document, rootEvidence: seq<Span>, historyPresent: bool,
                      related: seq<Related>, maxRelated: nat)
    returns (r: Result<Built>)
    requires d.Injective()
    ensures r.Ok? <==> Buildable(d, root, rootEvidence, related, maxRelated)
    ensures r.Ok? ==> r.value.contract == LineageContract(d, runId, root, rootEvidence, historyPresent, related, maxRelated)
    ensures r.Ok? ==>
              var c := r.value.contract;
              && GraphValid(c) && c.scope.value.Valid()
              && (forall n | n in c.nodes :: n.Valid()) && (forall e | e in c.edges :: e.Valid())
              && (forall t | t in c.treatments :: t.Valid())
    ensures r.Ok? ==>
              && (r.value.validation.structurallyValid <==>
                    StructurallyValid(r.value.contract, runId, ServerSources(root, related), ServerEvidence(rootEvidence, related)))
              && !r.value.validation.valid && |r.value.validation.qualifications| == QualificationCount(related)
  {
    hide NodeReady;
    hide Nodes;
    hide LineageEdges;
    hide Treatments;
    hide RootId;
    hide RelatedId;
    hide IdsOf;
    hide Confirming;
    hide SourceIdsOf;
    hide DecisiveIds;
    hide ProvidersOf;
    hide Blank;
    hide TreatmentReady;
    hide Distinct;
    hide GraphValid;
    hide Sort;
    hide Dedupe;
    hide QualificationCount;
    hide QualificationsOf;
    hide StructurallyValid;
    hide ServerSources;
    hide ServerEvidence;
    ConfirmingFits(root, related, maxRelated);
    if Buildable(d, root, rootEvidence, related, maxRelated) {
      BuiltIsValid(d, runId, root, rootEvidence, historyPresent, related, maxRelated);
    }
    var ok, nodes, edges, byNode, order := ReadRelated(d, root, rootEvidence, related);
    if !ok {
      return Err("INVALID_NODE_OR_EDGE");
    }
    var confirmed := ConfirmedReversals(byNode, order);
    var treatments := ReversalTreatments(RootId(d, root), byNode, confirmed);
    if Distinct(IdsOf(d, related)) {
      TreatmentsAreReady(d, root, related);
    }
    if exists t | t in treatments :: !TreatmentReady(t) {
      return Err("INVALID_TREATMENT");
    }
    var providers := Dedupe(ProvidersOf(root, related));
    if (exists p | p in ProvidersOf(root, related) :: Blank(p)) || |providers| > 32 || maxRelated >= 512 {
      return Err("INVALID_SCOPE");
    }
    var contract :=
      Contract(runId, true, PartialCoverage, Some(Scope(Sort(providers), maxRelated + 1, false, false)),
               nodes, edges, treatments, None, Limitations(historyPresent), false, false);
    LineageGraphValid(d, runId, root, rootEvidence, historyPresent, related, maxRelated);
    NodesDecide(d, root, rootEvidence, related, contract);
    ok := ValidateGraph(contract);
    if !ok {
      return Err("INVALID_GRAPH");
    }
    r := ValidateBuilt(d, runId, root, rootEvidence, historyPresent, related, maxRelated, contract);
  }

  /** The last step: the contract is validated against its own server identifiers. */
  method ValidateBuilt(d: Digests, runId: string, root: Document, rootEvidence: seq<Span>, historyPresent: bool,
                       related: seq<Related>, maxRelated: nat, contract: Contract)
    returns (r: Result<Built>)
    requires DistinctDecisions(d, root, related)
    requires contract == LineageContract(d, runId, root, rootEvidence, historyPresent, related, maxRelated)
    ensures r.Ok? <==> QualificationCount(related) <= MAX_QUALIFICATIONS
    ensures r.Ok? ==>
              && r.value.contract == contract
              && (r.value.validation.structurallyValid <==>
                    StructurallyValid(contract, runId, ServerSources(root, related), ServerEvidence(rootEvidence, related)))
              && !r.value.validation.valid && |r.value.validation.qualifications| == QualificationCount(related)
  {
    QualificationsCounted(d, runId, root, rootEvidence, historyPresent, related, maxRelated);
    assert contract.coverage.PartialCoverage?;
    assert !Eligible(contract, runId, ServerSources(root, related), ServerEvidence(rootEvidence, related));
    hide LineageContract;
    hide QualificationsOf;
    hide QualificationCount;
    hide StructurallyValid;
    hide Eligible;
    hide ServerSources;
    hide ServerEvidence;
    hide Dedupe;
    var validation := ValidateLineage(contract, runId, ServerSources(root, related), ServerEvidence(rootEvidence, related));
    if validation.Err? {
      return Err(validation.error);
    }
    r := Ok(Built(contract, validation.value));
  }

  lemma NodesDecide(d: Digests, root: Document, rootEvidence: seq<Span>, related: seq<Related>, c: Contract)
    requires c.nodes == Nodes(d, root, rootEvidence, related)
    ensures GraphValid(c) ==> DistinctDecisions(d, root, related)
  {
    NodeIdsDistinct(d, root, rootEvidence, related);
  }
}
