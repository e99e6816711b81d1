/** What a built lineage contract is worth when it is validated against its own server identifiers. */
module JudgmentLineageLaws {
  import opened Collections
  import opened Graphs
  import opened Sorting
  import opened AuthorityLineage
  import opened JudgmentLineage

  // ----- References stay within the server's lists --------------------------------------

  lemma {:induction false} NodeRefsWithin(nodes: seq<Node>, sources: set<string>, evidence: set<string>)
    requires forall n | n in nodes :: n.sourceId in sources && Elems(n.posture.sourceIds) <= sources
    requires forall n | n in nodes :: Elems(n.evidenceIds) <= evidence && Elems(n.posture.evidenceIds) <= evidence
    ensures NodeSources(nodes) <= sources && NodeEvidence(nodes) <= evidence
  {
    if nodes != [] {
      NodeRefsWithin(nodes[..|nodes| - 1], sources, evidence);
      assert nodes[|nodes| - 1] in nodes;
    }
  }

  lemma {:induction false} EdgeRefsWithin(edges: seq<LineageEdge>, sources: set<string>)
    requires forall e | e in edges :: Elems(e.sourceIds) <= sources && e.evidenceIds == []
    ensures EdgeSources(edges) <= sources && EdgeEvidence(edges) == {}
  {
    if edges != [] {
      EdgeRefsWithin(edges[..|edges| - 1], sources);
      assert edges[|edges| - 1] in edges;
      assert Elems<string>([]) == {};
    }
  }

  lemma {:induction false} TreatmentRefsWithin(ts: seq<Treatment>, sources: set<string>, evidence: set<string>)
    requires forall t | t in ts :: Elems(t.sourceIds) <= sources && Elems(t.evidenceIds) <= evidence
    ensures TreatmentSources(ts) <= sources && TreatmentEvidence(ts) <= evidence
  {
    if ts != [] {
      TreatmentRefsWithin(ts[..|ts| - 1], sources, evidence);
      assert ts[|ts| - 1] in ts;
    }
  }

  lemma {:induction false} DecisiveIsPart(evidence: seq<Span>)
    ensures Elems(EvidenceIds(Decisive(evidence))) <= Elems(EvidenceIds(evidence))
    ensures Distinct(EvidenceIds(evidence)) ==> Distinct(EvidenceIds(Decisive(evidence)))
  {
    if evidence != [] {
      var rest, last := evidence[..|evidence| - 1], evidence[|evidence| - 1];
      DecisiveIsPart(rest);
      EvidenceIdsAppend(rest, last);
      EvidenceIdsAppend(Decisive(rest), last);
      assert evidence == rest + [last];
      assert Decisive(evidence) == if last.Decisive() then Decisive(rest) + [last] else Decisive(rest);
      DistinctAppend(EvidenceIds(rest), last.evidenceId);
      DistinctAppend(EvidenceIds(Decisive(rest)), last.evidenceId);
      hide Distinct;
      hide Decisive;
      hide EvidenceIds;
    }
  }

  lemma EvidenceIdsAppend(evidence: seq<Span>, last: Span)
    ensures EvidenceIds(evidence + [last]) == EvidenceIds(evidence) + [last.evidenceId]
    ensures Elems(EvidenceIds(evidence + [last])) == Elems(EvidenceIds(evidence)) + {last.evidenceId}
  {
  }

  lemma {:induction false} RelatedEvidenceHas(related: seq<Related>, i: nat)
    requires i < |related|
    ensures Elems(EvidenceIds(related[i].evidence)) <= Elems(RelatedEvidence(related))
    decreases |related|
  {
    hide EvidenceIds;
    if i < |related| - 1 {
      RelatedEvidenceHas(related[..|related| - 1], i);
    }
  }

  /** The confirming decisions keep distinct evidence distinct, and add none. */
  lemma {:induction false} DecisiveIdsArePart(related: seq<Related>)
    ensures Elems(DecisiveIds(Confirming(related))) <= Elems(RelatedEvidence(related))
    ensures Distinct(RelatedEvidence(related)) ==> Distinct(DecisiveIds(Confirming(related)))
  {
    hide Confirms;
    hide EvidenceIds;
    hide Decisive;
    hide Distinct;
    if related == [] {
      assert Distinct<string>([]) by {
        DistinctEmpty();
      }
    } else {
      var rest, last := related[..|related| - 1], related[|related| - 1];
      var before, ids := DecisiveIds(Confirming(rest)), EvidenceIds(Decisive(last.evidence));
      DecisiveIdsArePart(rest);
      DecisiveIsPart(last.evidence);
      ElemsConcat(RelatedEvidence(rest), EvidenceIds(last.evidence));
      DistinctConcat(RelatedEvidence(rest), EvidenceIds(last.evidence));
      ElemsConcat(before, ids);
      DistinctConcat(before, ids);
      if Confirms(last) {
        assert Confirming(related) == Confirming(rest) + [last];
        assert Confirming(related)[..|Confirming(rest)|] == Confirming(rest);
        assert DecisiveIds(Confirming(related)) == before + ids;
      } else {
        assert Confirming(related) == Confirming(rest);
      }
      hide Elems;
    }
  }

  lemma DistinctEmpty()
    ensures Distinct<string>([])
  {
  }

  lemma {:induction false} ConfirmingSources(related: seq<Related>)
    ensures Elems(SourceIdsOf(Confirming(related))) <= Elems(SourceIdsOf(related))
    ensures Distinct(SourceIdsOf(related)) ==> Distinct(SourceIdsOf(Confirming(related)))
  {
    hide Confirms;
    hide Distinct;
    if related == [] {
    } else {
      var rest, last := related[..|related| - 1], related[|related| - 1];
      var confirming := Confirming(rest);
      ConfirmingSources(rest);
      assert SourceIdsOf(related) == SourceIdsOf(rest) + [last.source.sourceId];
      assert SourceIdsOf(confirming + [last]) == SourceIdsOf(confirming) + [last.source.sourceId];
      ElemsConcat(SourceIdsOf(rest), [last.source.sourceId]);
      ElemsConcat(SourceIdsOf(confirming), [last.source.sourceId]);
      DistinctAppend(SourceIdsOf(rest), last.source.sourceId);
      DistinctAppend(SourceIdsOf(confirming), last.source.sourceId);
      assert last.source.sourceId in SourceIdsOf(confirming) <==> last.source.sourceId in Elems(SourceIdsOf(confirming));
      assert last.source.sourceId in SourceIdsOf(rest) <==> last.source.sourceId in Elems(SourceIdsOf(rest));
      assert Confirming(related) == if Confirms(last) then confirming + [last] else confirming;
      hide Elems;
      hide SourceIdsOf;
      hide Confirming;
    }
  }

  // ----- The contract against its own server identifiers --------------------------------

  lemma SortWithin(s: seq<string>, bound: set<string>)
    requires Elems(s) <= bound
    ensures Elems(Sort(s)) <= bound
  {
    SortSorts(s);
  }

  lemma NodeOfRefs(nodeId: string, source: Document, evidence: seq<Span>, upper: bool, sources: set<string>, ids: set<string>)
    requires source.sourceId in sources && Elems(EvidenceIds(evidence)) <= ids
    ensures var n := NodeOf(nodeId, source, evidence, upper);
            && n.sourceId in sources && Elems(n.posture.sourceIds) <= sources
            && Elems(n.evidenceIds) <= ids && Elems(n.posture.evidenceIds) <= ids
            && (n.posture.resolved ==> n.sourceId in n.posture.sourceIds)
  {
    SortWithin(EvidenceIds(evidence), ids);
    hide EvidenceIds;
    hide Sort;
  }

  lemma NodesAreServerOwned(d: Digests, root: Document, rootEvidence: seq<Span>, related: seq<Related>)
    ensures NodeSources(Nodes(d, root, rootEvidence, related)) <= Elems(ServerSources(root, related))
    ensures NodeEvidence(Nodes(d, root, rootEvidence, related)) <= Elems(ServerEvidence(rootEvidence, related))
    ensures PosturesBound(Nodes(d, root, rootEvidence, related))
  {
    var nodes, sources, ids := Nodes(d, root, rootEvidence, related), Elems(ServerSources(root, related)), Elems(ServerEvidence(rootEvidence, related));
    hide NodeOf;
    hide RootId;
    hide RelatedId;
    hide EvidenceIds;
    hide RelatedEvidence;
    forall n | n in nodes
      ensures n.sourceId in sources && Elems(n.posture.sourceIds) <= sources
      ensures Elems(n.evidenceIds) <= ids && Elems(n.posture.evidenceIds) <= ids
      ensures n.posture.resolved ==> n.sourceId in n.posture.sourceIds
    {
      var i :| 0 <= i < |nodes| && nodes[i] == n;
      ElemsConcat(EvidenceIds(rootEvidence), RelatedEvidence(related));
      if i == 0 {
        assert ServerSources(root, related)[0] == root.sourceId;
        NodeOfRefs(RootId(d, root), root, rootEvidence, false, sources, ids);
      } else {
        var r := related[i - 1];
        assert ServerSources(root, related)[i] == r.source.sourceId;
        RelatedEvidenceHas(related, i - 1);
        NodeOfRefs(RelatedId(d, r), r.source, r.evidence, r.direction.Upper?, sources, ids);
      }
    }
    NodeRefsWithin(nodes, sources, ids);
  }

  lemma EdgesAreServerOwned(d: Digests, root: Document, related: seq<Related>)
    ensures EdgeSources(LineageEdges(d, root, related)) <= Elems(ServerSources(root, related))
    ensures EdgeEvidence(LineageEdges(d, root, related)) == {}
  {
    var edges, sources := LineageEdges(d, root, related), Elems(ServerSources(root, related));
    hide RootId;
    hide RelatedId;
    hide Sort;
    forall e | e in edges
      ensures Elems(e.sourceIds) <= sources && e.evidenceIds == []
    {
      var i :| 0 <= i < |edges| && edges[i] == e;
      assert ServerSources(root, related)[0] == root.sourceId && ServerSources(root, related)[i + 1] == related[i].source.sourceId;
      assert e == EdgeOf(d, root, related[i]);
      SortWithin([root.sourceId], sources);
      SortWithin([root.sourceId, related[i].source.sourceId], sources);
    }
    EdgeRefsWithin(edges, sources);
  }

  lemma TreatmentsAreServerOwned(d: Digests, root: Document, rootEvidence: seq<Span>, related: seq<Related>)
    ensures TreatmentSources(Treatments(d, root, related)) <= Elems(ServerSources(root, related))
    ensures TreatmentEvidence(Treatments(d, root, related)) <= Elems(ServerEvidence(rootEvidence, related))
  {
    var sources, ids := Elems(ServerSources(root, related)), Elems(ServerEvidence(rootEvidence, related));
    ConfirmingSources(related);
    DecisiveIdsArePart(related);
    ElemsConcat([root.sourceId], SourceIdsOf(related));
    ElemsConcat(EvidenceIds(rootEvidence), RelatedEvidence(related));
    SortWithin(SourceIdsOf(Confirming(related)), sources);
    SortWithin(DecisiveIds(Confirming(related)), ids);
    hide Sort;
    hide Confirming;
    hide SourceIdsOf;
    hide DecisiveIds;
    hide RelatedEvidence;
    hide EvidenceIds;
    hide RootId;
    hide IdsOf;
    hide Elems;
    TreatmentRefsWithin(Treatments(d, root, related), sources, ids);
  }

  /** Validated against its own server identifiers, the contract is structurally valid exactly
      when those are free of repetitions, and never eligible: its coverage is always partial. */
  lemma BuiltContractStanding(d: Digests, runId: string, root: Document, rootEvidence: seq<Span>, historyPresent: bool,
                              related: seq<Related>, maxRelated: nat)
    ensures var c := LineageContract(d, runId, root, rootEvidence, historyPresent, related, maxRelated);
            var sources, evidence := ServerSources(root, related), ServerEvidence(rootEvidence, related);
            && (StructurallyValid(c, runId, sources, evidence) <==> Distinct(sources) && Distinct(evidence))
            && !Eligible(c, runId, sources, evidence)
  {
    NodesAreServerOwned(d, root, rootEvidence, related);
    EdgesAreServerOwned(d, root, related);
    TreatmentsAreServerOwned(d, root, rootEvidence, related);
    BuiltIsUnforged(d, runId, root, rootEvidence, historyPresent, related, maxRelated);
    assert Nodes(d, root, rootEvidence, related) != [];
    hide Forged;
    hide Nodes;
    hide LineageEdges;
    hide Treatments;
    hide NodeSources;
    hide NodeEvidence;
    hide EdgeSources;
    hide EdgeEvidence;
    hide TreatmentSources;
    hide TreatmentEvidence;
    hide ServerSources;
    hide ServerEvidence;
    hide PosturesBound;
    hide Elems;
    hide Distinct;
    hide Sort;
    hide Dedupe;
    hide ProvidersOf;
    hide Limitations;
  }

  lemma BuiltIsUnforged(d: Digests, runId: string, root: Document, rootEvidence: seq<Span>, historyPresent: bool,
                        related: seq<Related>, maxRelated: nat)
    ensures !Forged(LineageContract(d, runId, root, rootEvidence, historyPresent, related, maxRelated))
  {
    hide Confirming;
    hide Sort;
    hide Nodes;
    hide LineageEdges;
    hide Dedupe;
    hide ProvidersOf;
    hide Limitations;
  }

  // ----- Distinct decisions can always be built -----------------------------------------

  function Identifiers(related: seq<Related>): seq<string> {
    seq(|related|, i requires 0 <= i < |related| => Identifier(related[i]))
  }

  lemma DistinctIdentifiers(d: Digests, root: Document, related: seq<Related>)
    requires d.Injective()
    ensures DistinctDecisions(d, root, related) <==> Distinct([RootIdentifier(root)] + Identifiers(related))
  {
    hide RootIdentifier;
    hide Identifier;
    DistinctCons(RootIdentifier(root), Identifiers(related));
    forall i | 0 <= i < |related|
      ensures IdsOf(d, related)[i] == d.node(Identifiers(related)[i])
    {
    }
  }

  lemma {:induction false} RelatedEvidenceDistinct(related: seq<Related>, r: Related)
    requires Distinct(RelatedEvidence(related)) && r in related
    ensures Distinct(EvidenceIds(r.evidence))
  {
    hide EvidenceIds;
    var rest, last := related[..|related| - 1], related[|related| - 1];
    DistinctConcat(RelatedEvidence(rest), EvidenceIds(last.evidence));
    if r != last {
      RelatedEvidenceDistinct(rest, r);
    }
  }

  ghost predicate EvidenceFits(rootEvidence: seq<Span>, related: seq<Related>) {
    |rootEvidence| <= 128 && forall r | r in related :: |r.evidence| <= 128
  }

  /** With distinct identifiers and distinct server identifiers, any number of decisions makes a
      contract that passes every graph check and is structurally valid but not eligible. It is built
      exactly when the list limits are met. */
  lemma DistinctDecisionsBuild(d: Digests, runId: string, root: Document, rootEvidence: seq<Span>, historyPresent: bool,
                               related: seq<Related>, maxRelated: nat)
    requires d.Injective()
    requires Distinct([RootIdentifier(root)] + Identifiers(related))
    requires Distinct(ServerSources(root, related)) && Distinct(ServerEvidence(rootEvidence, related))
    requires Elems(ServerSources(root, related)) !! Elems(ServerEvidence(rootEvidence, related))
    requires forall p | p in ProvidersOf(root, related) :: !Blank(p)
    ensures Buildable(d, root, rootEvidence, related, maxRelated) <==>
              EvidenceFits(rootEvidence, related) && Sized(root, related, maxRelated)
    ensures var c := LineageContract(d, runId, root, rootEvidence, historyPresent, related, maxRelated);
            && GraphValid(c)
            && StructurallyValid(c, runId, ServerSources(root, related), ServerEvidence(rootEvidence, related))
            && !Eligible(c, runId, ServerSources(root, related), ServerEvidence(rootEvidence, related))
  {
    DistinctIdentifiers(d, root, related);
    LineageGraphValid(d, runId, root, rootEvidence, historyPresent, related, maxRelated);
    BuiltContractStanding(d, runId, root, rootEvidence, historyPresent, related, maxRelated);
    NodesReady(root, rootEvidence, related);
    DistinctConcat([root.sourceId], SourceIdsOf(related));
    ConfirmingSources(related);
    DistinctConcat(EvidenceIds(rootEvidence), RelatedEvidence(related));
    DecisiveIdsArePart(related);
    hide DistinctDecisions;
    hide Distinct;
    hide Elems;
    hide NodeReady;
    hide GraphValid;
    hide StructurallyValid;
    hide Eligible;
    hide LineageContract;
    hide ProvidersOf;
    hide Blank;
    hide Confirming;
    hide Sized;
  }

  lemma {:induction false} LowersCount(related: seq<Related>)
    ensures Lowers(related) + |Confirming(related)| <= |related|
    ensures (forall r | r in related :: r.direction.Lower?) ==> Lowers(related) == |related|
  {
    if related != [] {
      var rest, last := related[..|related| - 1], related[|related| - 1];
      LowersCount(rest);
      assert last in related && forall r | r in rest :: r in related;
    }
  }

  /** Thirty instances never report too many qualifications; thirty-one lower ones always do. */
  lemma HowManyInstances(d: Digests, root: Document, rootEvidence: seq<Span>, related: seq<Related>, maxRelated: nat)
    ensures |related| <= 30 ==> QualificationCount(related) <= 64
    ensures |related| >= 31 && (forall r | r in related :: r.direction.Lower?) ==>
              !Buildable(d, root, rootEvidence, related, maxRelated)
  {
    LowersCount(related);
    hide Lowers;
    hide Confirming;
    hide DistinctDecisions;
    hide NodeReady;
  }

  lemma NodesReady(root: Document, rootEvidence: seq<Span>, related: seq<Related>)
    requires Distinct(ServerEvidence(rootEvidence, related))
    requires Elems(ServerSources(root, related)) !! Elems(ServerEvidence(rootEvidence, related))
    ensures NodeReady(root, rootEvidence) <==> |rootEvidence| <= MAX_EVIDENCE
    ensures forall r | r in related :: NodeReady(r.source, r.evidence) <==> |r.evidence| <= MAX_EVIDENCE
  {
    hide EvidenceIds;
    hide RelatedEvidence;
    hide Distinct;
    var sources, evidence := ServerSources(root, related), ServerEvidence(rootEvidence, related);
    ElemsConcat(EvidenceIds(rootEvidence), RelatedEvidence(related));
    DistinctConcat(EvidenceIds(rootEvidence), RelatedEvidence(related));
    assert sources[0] == root.sourceId && sources[0] in Elems(sources);
    assert root.sourceId in EvidenceIds(rootEvidence) ==> root.sourceId in Elems(evidence);
    forall r | r in related
      ensures NodeReady(r.source, r.evidence) <==> |r.evidence| <= MAX_EVIDENCE
    {
      var i :| 0 <= i < |related| && related[i] == r;
      assert sources[i + 1] == r.source.sourceId && sources[i + 1] in Elems(sources);
      RelatedEvidenceHas(related, i);
      RelatedEvidenceDistinct(related, r);
      assert r.source.sourceId in EvidenceIds(r.evidence) ==> r.source.sourceId in Elems(evidence);
    }
  }
}
