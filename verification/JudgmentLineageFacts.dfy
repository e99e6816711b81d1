/** What a built lineage contract says of the judgment and of each of its instances. */
module JudgmentLineageFacts {
  import opened Collections
  import opened Sorting
  import opened AuthorityLineage
  import opened JudgmentLineage

  // ----- Reading the evidence -----------------------------------------------------------

  /** The span is an eligible part of the disposition. */
  ghost predicate Decides(e: Span) {
    e.section == Disposition && e.eligible
  }

  ghost predicate Reversing(code: Code) {
    code == VacatedRemanded || code == VacatedReversed
  }

  /** An upper instance marked as vacating, with a deciding span, of which the metadata or a deciding
      span is classified as vacated. */
  ghost predicate Reverses(r: Related) {
    && r.direction == Upper && r.vacatedMarker
    && (exists e | e in r.evidence :: Decides(e))
    && ((exists code | code in r.source.declaredCodes :: Reversing(code))
        || exists e, code | e in r.evidence && code in e.codes :: Decides(e) && Reversing(code))
  }

  lemma {:induction false} DecisiveAre(evidence: seq<Span>)
    ensures forall e :: e in JudgmentLineage.Decisive(evidence) <==> e in evidence && Decides(e)
  {
    if evidence != [] {
      DecisiveAre(evidence[..|evidence| - 1]);
      assert evidence == evidence[..|evidence| - 1] + [evidence[|evidence| - 1]];
    }
  }

  lemma {:induction false} CodesAre(evidence: seq<Span>)
    ensures forall code :: code in CodesOf(evidence) <==> exists e :: e in evidence && code in e.codes
  {
    if evidence != [] {
      CodesAre(evidence[..|evidence| - 1]);
      assert evidence == evidence[..|evidence| - 1] + [evidence[|evidence| - 1]];
    }
  }

  /** The codes a decision is known by: without a deciding span only "unknown"; otherwise those of the
      metadata and of the deciding spans, "unknown" standing only alone. */
  lemma KnownCodesAre(source: Document, evidence: seq<Span>, code: Code)
    requires code != UnknownCode
    ensures code in KnownCodes(source, evidence) <==>
              && (exists e | e in evidence :: Decides(e))
              && (code in source.declaredCodes || exists e | e in evidence :: Decides(e) && code in e.codes)
    ensures UnknownCode in KnownCodes(source, evidence) <==> KnownCodes(source, evidence) == {UnknownCode}
  {
    DecisiveAre(evidence);
    CodesAre(JudgmentLineage.Decisive(evidence));
    hide JudgmentLineage.Decisive;
    hide CodesOf;
    var decisive := JudgmentLineage.Decisive(evidence);
    if decisive != [] {
      assert decisive[0] in decisive;
    }
    var all := Elems(source.declaredCodes) + CodesOf(decisive);
    if code in all {
      assert code in all - {UnknownCode};
    }
  }

  lemma ConfirmsIsReverses(r: Related)
    ensures Confirms(r) <==> Reverses(r)
  {
    KnownCodesAre(r.source, r.evidence, VacatedRemanded);
    KnownCodesAre(r.source, r.evidence, VacatedReversed);
    DecisiveAre(r.evidence);
    var known := KnownCodes(r.source, r.evidence);
    hide KnownCodes;
    hide JudgmentLineage.Decisive;
    var decisive := JudgmentLineage.Decisive(r.evidence);
    if decisive != [] {
      assert decisive[0] in decisive;
    }
    assert Confirms(r) <==> r.direction.Upper? && r.vacatedMarker && decisive != [] && (VacatedRemanded in known || VacatedReversed in known) by {
      SomeVacated(known);
      ConfirmsMeans(r);
    }
    hide Confirms;
    if Confirms(r) {
      var code := if VacatedRemanded in known then VacatedRemanded else VacatedReversed;
      assert Reversing(code);
      if code !in r.source.declaredCodes {
        var e :| e in r.evidence && Decides(e) && code in e.codes;
      }
    }
    if Reverses(r) {
      if code :| code in r.source.declaredCodes && Reversing(code) {
        assert code in known;
      } else {
        var e, code :| e in r.evidence && code in e.codes && Decides(e) && Reversing(code);
        assert code in known;
      }
    }
  }

  lemma SomeVacated(known: set<Code>)
    ensures known * {VacatedRemanded, VacatedReversed} != {} <==> VacatedRemanded in known || VacatedReversed in known
  {
    if VacatedRemanded in known {
      assert VacatedRemanded in known * {VacatedRemanded, VacatedReversed};
    }
    if VacatedReversed in known {
      assert VacatedReversed in known * {VacatedRemanded, VacatedReversed};
    }
  }

  // ----- Nodes --------------------------------------------------------------------------

  /** The ids of the spans in ascending order, none lost and none added. */
  ghost predicate ListsInOrder(ids: seq<string>, evidence: seq<Span>) {
    && Ascending(ids) && |ids| == |evidence|
    && forall id :: id in ids <==> exists e :: e in evidence && e.evidenceId == id
  }

  lemma EvidenceIdsAre(evidence: seq<Span>)
    ensures forall id :: id in Elems(EvidenceIds(evidence)) <==> exists e :: e in evidence && e.evidenceId == id
  {
    forall id
      ensures id in Elems(EvidenceIds(evidence)) <==> exists e :: e in evidence && e.evidenceId == id
    {
      if e :| e in evidence && e.evidenceId == id {
        var i :| 0 <= i < |evidence| && evidence[i] == e;
        assert EvidenceIds(evidence)[i] == id;
      }
    }
  }

  lemma SortedIds(evidence: seq<Span>)
    ensures ListsInOrder(Sort(EvidenceIds(evidence)), evidence)
  {
    SortSorts(EvidenceIds(evidence));
    EvidenceIdsAre(evidence);
    hide Sort;
    hide Ascending;
    var ids := Sort(EvidenceIds(evidence));
    assert forall id :: id in ids <==> id in Elems(ids);
  }

  /** The name a decision is known by: its official identifier, or the fallback without one. */
  ghost predicate NameIs(source: Document, fallback: string, name: string) {
    if source.officialIdentifier == None || source.officialIdentifier.value == [] then name == fallback
    else name == source.officialIdentifier.value
  }

  /** The node of a decision: a holding exactly when an eligible span is part of the disposition or of
      the court's view; force, time and validity are never resolved, the institution is when the court
      is known, and stage, adjudication and posture are just for an upper instance, which rests its
      posture on its own source. */
  ghost predicate NodeFits(n: Node, source: Document, evidence: seq<Span>, upper: bool) {
    && n.sourceId == source.sourceId && ListsInOrder(n.evidenceIds, evidence)
    && (n.role == Holding <==> exists e | e in evidence :: e.eligible && (e.section == Disposition || e.section == CourtView))
    && (n.role == Holding || n.role == Procedure)
    && n.axes.force && n.axes.temporal && n.axes.validity
    && (n.axes.institution <==> !source.courtKnown)
    && (n.axes.adjudication <==> !upper) && (n.axes.stage <==> !upper)
    && (n.posture.stageKnown <==> upper) && (n.posture.resolved <==> upper)
    && Elems(n.posture.sourceIds) == (if upper then {source.sourceId} else {}) && n.posture.evidenceIds == []
  }

  lemma NodeIs(nodeId: string, source: Document, evidence: seq<Span>, upper: bool)
    ensures NodeFits(NodeOf(nodeId, source, evidence, upper), source, evidence, upper)
    ensures NodeOf(nodeId, source, evidence, upper).nodeId == nodeId
  {
    SortedIds(evidence);
    hide ListsInOrder;
    hide Sort;
    hide EvidenceIds;
  }

  // ----- Edges --------------------------------------------------------------------------

  /** The edge of an instance leads from an upper one to the judgment, and from the judgment to a lower
      one, and rests on both sources. */
  ghost predicate EdgeFits(d: Digests, e: LineageEdge, rootId: string, id: string, root: Document, r: Related) {
    && e.fromId == (if r.direction == Upper then id else rootId)
    && e.toId == (if r.direction == Upper then rootId else id)
    && e.edgeId == d.edge(e.fromId, e.toId)
    && Ascending(e.sourceIds) && Distinct(e.sourceIds) && Elems(e.sourceIds) == {root.sourceId, r.source.sourceId}
    && e.evidenceIds == []
  }

  lemma EdgeIs(d: Digests, root: Document, r: Related)
    ensures EdgeFits(d, EdgeOf(d, root, r), RootId(d, root), RelatedId(d, r), root, r)
  {
    var one, two := [root.sourceId], [root.sourceId, r.source.sourceId];
    SortSorts(one);
    SortSorts(two);
    SortKeepsDistinct(one);
    SortKeepsDistinct(two);
    assert Elems(one) == {root.sourceId} && Elems(two) == {root.sourceId, r.source.sourceId};
    hide Sort;
    hide Ascending;
    hide RootId;
    hide RelatedId;
  }

  // ----- The treatment ------------------------------------------------------------------

  lemma {:induction false} ConfirmingAre(related: seq<Related>)
    ensures forall r :: r in Confirming(related) <==> r in related && Reverses(r)
  {
    hide Confirms;
    hide Reverses;
    if related != [] {
      var rest, last := related[..|related| - 1], related[|related| - 1];
      ConfirmingAre(rest);
      ConfirmsIsReverses(last);
      assert related == rest + [last];
    }
  }

  lemma {:induction false} DecisiveIdsAre(related: seq<Related>)
    ensures forall id :: id in Elems(DecisiveIds(related)) <==> exists r, e | r in related && e in r.evidence :: Decides(e) && e.evidenceId == id
  {
    hide Decides;
    if related != [] {
      var rest, last := related[..|related| - 1], related[|related| - 1];
      DecisiveIdsAre(rest);
      DecisiveAre(last.evidence);
      EvidenceIdsAre(JudgmentLineage.Decisive(last.evidence));
      ElemsConcat(DecisiveIds(rest), EvidenceIds(JudgmentLineage.Decisive(last.evidence)));
      assert related == rest + [last];
      hide EvidenceIds;
      hide JudgmentLineage.Decisive;
      hide Elems;
    }
  }

  /** One treatment, of the judgment, by exactly the instances that reverse it, resting on their sources
      and on their deciding spans. */
  ghost predicate TreatmentFits(d: Digests, t: Treatment, rootId: string, related: seq<Related>) {
    && t.target == rootId && t.status == Reversed && t.scope == None && !t.classified && !t.consensusClaim
    && (forall id :: id in Elems(t.treating) <==> exists r | r in related :: Reverses(r) && RelatedId(d, r) == id)
    && (forall id :: id in Elems(t.sourceIds) <==> exists r | r in related :: Reverses(r) && r.source.sourceId == id)
    && (forall id :: id in Elems(t.evidenceIds) <==>
          exists r, e | r in related && e in r.evidence :: Reverses(r) && Decides(e) && e.evidenceId == id)
    && Ascending(t.sourceIds) && Ascending(t.evidenceIds)
    && t.reasons == ["TLR_UPPER_VACATED_MARKER", "OFFICIAL_UPPER_DISPOSITION_CONFIRMED"]
  }

  lemma IdsAre(d: Digests, related: seq<Related>)
    ensures forall id :: id in Elems(IdsOf(d, related)) <==> exists r | r in related :: RelatedId(d, r) == id
    ensures forall id :: id in Elems(SourceIdsOf(related)) <==> exists r | r in related :: r.source.sourceId == id
  {
    hide RelatedId;
    forall r | r in related
      ensures RelatedId(d, r) in Elems(IdsOf(d, related)) && r.source.sourceId in Elems(SourceIdsOf(related))
    {
      var i :| 0 <= i < |related| && related[i] == r;
      assert IdsOf(d, related)[i] == RelatedId(d, r) && SourceIdsOf(related)[i] == r.source.sourceId;
    }
  }

  lemma TreatmentsAre(d: Digests, root: Document, related: seq<Related>)
    ensures Treatments(d, root, related) == [] <==> forall r | r in related :: !Reverses(r)
    ensures Treatments(d, root, related) != [] ==>
              |Treatments(d, root, related)| == 1 && TreatmentFits(d, Treatments(d, root, related)[0], RootId(d, root), related)
  {
    var confirming := Confirming(related);
    ConfirmingAre(related);
    IdsAre(d, confirming);
    DecisiveIdsAre(confirming);
    SortSorts(SourceIdsOf(confirming));
    SortSorts(DecisiveIds(confirming));
    if confirming != [] {
      assert confirming[0] in confirming;
    }
    hide Confirming;
    hide IdsOf;
    hide SourceIdsOf;
    hide DecisiveIds;
    hide RelatedId;
    hide RootId;
    hide Reverses;
    hide Decides;
    hide Sort;
    hide Ascending;
    hide Elems;
  }

  // ----- The contract -------------------------------------------------------------------

  /** Who was asked, in order and each once, and for how many decisions at most. */
  ghost predicate ScopeFits(scope: Option<Scope>, root: Document, related: seq<Related>, maxRelated: nat) {
    && scope.Some? && scope.value.maxResults == maxRelated + 1
    && !scope.value.absenceClaim && !scope.value.consensusClaim
    && Ascending(scope.value.providerIds) && Distinct(scope.value.providerIds)
    && forall p :: p in Elems(scope.value.providerIds) <==>
                     p == "tlr_semantic_recall" || p == root.providerId || exists r :: r in related && r.source.providerId == p
  }

  lemma ScopeIs(root: Document, related: seq<Related>, maxRelated: nat)
    ensures ScopeFits(Some(Scope(Sort(Dedupe(ProvidersOf(root, related))), maxRelated + 1, false, false)), root, related, maxRelated)
  {
    var providers := ProvidersOf(root, related);
    DedupeKeeps(providers);
    SortSorts(Dedupe(providers));
    SortKeepsDistinct(Dedupe(providers));
    ProvidersAre(root, related);
    hide Sort;
    hide Ascending;
    hide Dedupe;
    hide Distinct;
    hide ProvidersOf;
    hide Elems;
  }

  lemma ProvidersAre(root: Document, related: seq<Related>)
    ensures forall p :: p in Elems(ProvidersOf(root, related)) <==>
                          p == "tlr_semantic_recall" || p == root.providerId || exists r :: r in related && r.source.providerId == p
  {
    var providers := ProvidersOf(root, related);
    assert providers[0] == "tlr_semantic_recall" && providers[1] == root.providerId;
    assert forall i | 0 <= i < |related| :: providers[i + 2] == related[i].source.providerId;
    forall p
      ensures p in Elems(providers) <==>
                p == "tlr_semantic_recall" || p == root.providerId || exists r :: r in related && r.source.providerId == p
    {
      if r :| r in related && r.source.providerId == p {
        var i :| 0 <= i < |related| && related[i] == r;
        assert providers[i + 2] == p;
      }
      if p in Elems(providers) {
        var k :| 0 <= k < |providers| && providers[k] == p;
        if k >= 2 {
          assert related[k - 2] in related;
        }
      }
    }
  }

  /** The node id stands for the name of the decision. */
  ghost predicate Stands(d: Digests, nodeId: string, source: Document, fallback: string) {
    exists name :: NameIs(source, fallback, name) && nodeId == d.node(name)
  }

  lemma StandsFor(d: Digests, root: Document, r: Related)
    ensures Stands(d, RootId(d, root), root, root.sourceId)
    ensures Stands(d, RelatedId(d, r), r.source, r.documentId)
  {
    assert NameIs(root, root.sourceId, RootIdentifier(root));
    assert NameIs(r.source, r.documentId, Identifier(r));
  }

  /** The contract has a node for the judgment and one for each instance, in their order, and an edge
      for each instance. */
  ghost predicate GraphFits(d: Digests, c: Contract, root: Document, rootEvidence: seq<Span>, related: seq<Related>) {
    && |c.nodes| == |related| + 1 && |c.edges| == |related|
    && NodeFits(c.nodes[0], root, rootEvidence, false) && Stands(d, c.nodes[0].nodeId, root, root.sourceId)
    && forall i | 0 <= i < |related| ::
         && NodeFits(c.nodes[i + 1], related[i].source, related[i].evidence, related[i].direction == Upper)
         && Stands(d, c.nodes[i + 1].nodeId, related[i].source, related[i].documentId)
         && EdgeFits(d, c.edges[i], c.nodes[0].nodeId, c.nodes[i + 1].nodeId, root, related[i])
  }

  lemma GraphIs(d: Digests, runId: string, root: Document, rootEvidence: seq<Span>, historyPresent: bool, related: seq<Related>, maxRelated: nat)
    ensures GraphFits(d, LineageContract(d, runId, root, rootEvidence, historyPresent, related, maxRelated), root, rootEvidence, related)
  {
    var c := LineageContract(d, runId, root, rootEvidence, historyPresent, related, maxRelated);
    hide NodeFits;
    hide EdgeFits;
    hide Stands;
    hide NodeOf;
    hide EdgeOf;
    hide RootId;
    hide RelatedId;
    NodeIs(RootId(d, root), root, rootEvidence, false);
    var any := Related(Upper, root.sourceId, false, root, rootEvidence);
    StandsFor(d, root, any);
    forall i | 0 <= i < |related|
      ensures && NodeFits(c.nodes[i + 1], related[i].source, related[i].evidence, related[i].direction == Upper)
              && Stands(d, c.nodes[i + 1].nodeId, related[i].source, related[i].documentId)
              && EdgeFits(d, c.edges[i], c.nodes[0].nodeId, c.nodes[i + 1].nodeId, root, related[i])
    {
      var r := related[i];
      NodeIs(RelatedId(d, r), r.source, r.evidence, r.direction.Upper?);
      StandsFor(d, root, r);
      EdgeIs(d, root, r);
    }
  }

  /** The contract that is built says what the decisions say: their nodes and edges, one treatment
      exactly when some instance reverses the judgment, partial coverage in the scope asked, and the
      limits of a recorded case history, which is named as missing when there is none. */
  lemma ContractSays(d: Digests, runId: string, root: Document, rootEvidence: seq<Span>, historyPresent: bool, related: seq<Related>,
                     maxRelated: nat)
    ensures var c := LineageContract(d, runId, root, rootEvidence, historyPresent, related, maxRelated);
            && GraphFits(d, c, root, rootEvidence, related)
            && (c.treatments == [] <==> forall r | r in related :: !Reverses(r))
            && (c.treatments != [] ==> |c.treatments| == 1 && TreatmentFits(d, c.treatments[0], c.nodes[0].nodeId, related))
            && ScopeFits(c.scope, root, related, maxRelated)
            && c.runId == runId && c.serverOwned && c.coverage == PartialCoverage && c.notFound == None
            && !c.classified && !c.consensusClaim
            && ("TLR_CASE_HISTORY_FIELD_MISSING" == c.limitations[|c.limitations| - 1] <==> !historyPresent)
            && c.limitations[..4] == ["TLR_CASE_HISTORY_DATABASE_RECORDED_ONLY", "NO_UPPER_HISTORY_DOES_NOT_ESTABLISH_FINALITY",
                                      "TLR_CASE_HISTORY_RELATION_GRANULARITY_BOUNDED", "SEMANTIC_OPINION_COMPARISON_NOT_PERFORMED"]
            && |c.limitations| == if historyPresent then 4 else 5
  {
    GraphIs(d, runId, root, rootEvidence, historyPresent, related, maxRelated);
    TreatmentsAre(d, root, related);
    ScopeIs(root, related, maxRelated);
    LimitationsAre(historyPresent);
    NodeIs(RootId(d, root), root, rootEvidence, false);
    hide NodeFits;
    hide RootId;
    hide GraphFits;
    hide TreatmentFits;
    hide ScopeFits;
    hide Reverses;
    hide NodeOf;
    hide LineageEdges;
    hide Treatments;
    hide ProvidersOf;
    hide Limitations;
    hide Sort;
    hide Dedupe;
  }

  lemma LimitationsAre(historyPresent: bool)
    ensures var limitations := Limitations(historyPresent);
            && |limitations| == (if historyPresent then 4 else 5)
            && limitations[..4] == ["TLR_CASE_HISTORY_DATABASE_RECORDED_ONLY", "NO_UPPER_HISTORY_DOES_NOT_ESTABLISH_FINALITY",
                                    "TLR_CASE_HISTORY_RELATION_GRANULARITY_BOUNDED", "SEMANTIC_OPINION_COMPARISON_NOT_PERFORMED"]
            && ("TLR_CASE_HISTORY_FIELD_MISSING" == limitations[|limitations| - 1] <==> !historyPresent)
  {
    assert "TLR_CASE_HISTORY_FIELD_MISSING"[0] != "SEMANTIC_OPINION_COMPARISON_NOT_PERFORMED"[0];
  }
}
