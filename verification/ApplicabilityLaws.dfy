/** What an applicability resolution means: the controlling source dominates every other
    active one, whatever the order in which sources were requested. */
module ApplicabilityLaws {
  import opened Collections
  import opened Graphs
  import opened Applicability
  import opened ApplicabilityFacts

  function Targets(s: Source): set<string> {
    Elems(s.specializes) + Elems(s.superior) + Elems(s.supersedes)
  }

  /** The active relations, read off the catalog rather than off a scan of it. */
  function ActiveEdges(cat: Catalog, request: Request): set<Edge>
    requires Known(cat, request)
  {
    set id, t | id in ActiveIds(cat, request) && t in Targets(cat.sources[id]) && t in ActiveIds(cat, request) :: (id, t)
  }

  ghost predicate TargetsInScope(cat: Catalog, request: Request)
    requires Known(cat, request)
  {
    forall id, t | id in request.sourceIds && t in Targets(cat.sources[id]) :: t in request.sourceIds
  }

  // ----- What a scan of the relations finds ---------------------------------------------

  lemma {:induction false} TaggedMeans(kind: RelationKind, stronger: string, targets: seq<string>)
    ensures |Tagged(kind, stronger, targets)| == |targets|
    ensures forall r :: r in Tagged(kind, stronger, targets) <==>
                          r.kind == kind && r.stronger == stronger && r.weaker in targets
  {
    if targets != [] {
      var rest, last := targets[..|targets| - 1], targets[|targets| - 1];
      TaggedMeans(kind, stronger, rest);
      assert targets == rest + [last];
    }
  }

  lemma RelationsOfMeans(s: Source)
    ensures |RelationsOf(s)| == |s.specializes| + |s.superior| + |s.supersedes|
    ensures forall r | r in RelationsOf(s) :: r.stronger == s.sourceId && r.weaker in Targets(s)
    ensures forall t | t in Targets(s) :: exists r :: r in RelationsOf(s) && r.weaker == t
  {
    TaggedMeans(SpecialToGeneral, s.sourceId, s.specializes);
    TaggedMeans(SuperiorToInferior, s.sourceId, s.superior);
    TaggedMeans(TemporalSuccessor, s.sourceId, s.supersedes);
    forall t | t in Targets(s)
      ensures exists r :: r in RelationsOf(s) && r.weaker == t
    {
      if t in s.specializes {
        assert Relation(SpecialToGeneral, s.sourceId, t) in RelationsOf(s);
      } else if t in s.superior {
        assert Relation(SuperiorToInferior, s.sourceId, t) in RelationsOf(s);
      } else {
        assert Relation(TemporalSuccessor, s.sourceId, t) in RelationsOf(s);
      }
    }
  }

  lemma {:induction false} RelationsMean(cat: Catalog, ids: seq<string>)
    requires cat.Valid() && forall id | id in ids :: id in cat.sources
    ensures forall r | r in Relations(cat, ids) :: r.stronger in ids && r.weaker in Targets(cat.sources[r.stronger])
    ensures forall id, t | id in ids && t in Targets(cat.sources[id]) ::
              exists r :: r in Relations(cat, ids) && r.stronger == id && r.weaker == t
  {
    hide RelationsOf;
    hide Targets;
    if ids != [] {
      var rest, last := ids[..|ids| - 1], ids[|ids| - 1];
      RelationsMean(cat, rest);
      RelationsOfMeans(cat.sources[last]);
      assert ids == rest + [last];
      forall id, t | id in ids && t in Targets(cat.sources[id])
        ensures exists r :: r in Relations(cat, ids) && r.stronger == id && r.weaker == t
      {
        if id in rest {
          var r :| r in Relations(cat, rest) && r.stronger == id && r.weaker == t;
          assert r in Relations(cat, ids);
        } else {
          var r :| r in RelationsOf(cat.sources[last]) && r.weaker == t;
          assert r in Relations(cat, ids);
        }
      }
    }
  }

  lemma {:induction false} ScanMeans(rs: seq<Relation>, scope: set<string>, active: set<string>)
    ensures var sc := ScanAll(Scan([], [], true), rs, scope, active);
            && (sc.inScope <==> forall r | r in rs :: r.weaker in scope)
            && |sc.findings| <= |rs|
            && (sc.inScope ==>
                  && |sc.findings| == |rs|
                  && Elems(sc.edges) == set r | r in rs && r.stronger in active && r.weaker in active :: (r.stronger, r.weaker))
  {
    if rs != [] {
      var rest, last := rs[..|rs| - 1], rs[|rs| - 1];
      ScanMeans(rest, scope, active);
      assert rs == rest + [last];
      var before := ScanAll(Scan([], [], true), rest, scope, active);
      assert Elems(before.edges + [(last.stronger, last.weaker)]) == Elems(before.edges) + {(last.stronger, last.weaker)};
    }
  }

  lemma ScanRequestMeans(cat: Catalog, request: Request)
    requires cat.Valid() && Known(cat, request)
    ensures var sc := ScanRequest(cat, request);
            && (sc.inScope <==> TargetsInScope(cat, request))
            && |sc.findings| <= |Relations(cat, request.sourceIds)|
            && (sc.inScope ==>
                  && |sc.findings| == |Relations(cat, request.sourceIds)|
                  && Elems(sc.edges) == ActiveEdges(cat, request))
  {
    hide Targets;
    hide ScanAll;
    var ids, active := request.sourceIds, ActiveIds(cat, request);
    var rs := Relations(cat, ids);
    RelationsMean(cat, ids);
    ScanMeans(rs, Elems(ids) * cat.sources.Keys, active);
    hide Relations;
    hide Assess;
    var pairs := set r | r in rs && r.stronger in active && r.weaker in active :: (r.stronger, r.weaker);
    forall e | e in ActiveEdges(cat, request)
      ensures e in pairs
    {
      var r :| r in rs && r.stronger == e.0 && r.weaker == e.1;
    }
    assert pairs == ActiveEdges(cat, request);
  }

  // ----- The controlling source ---------------------------------------------------------

  /** c reaches every active source by a chain of active relations, and no chain is circular. */
  ghost predicate Dominates(active: set<string>, edges: set<Edge>, c: string) {
    !Cyclic(edges) && c in active && forall a | a in active :: Reaches(edges, c, a)
  }

  /** The graph theory behind the selection: exactly one source is undominated just when one
      source dominates all others transitively. */
  lemma UndominatedDominates(active: set<string>, edges: set<Edge>, c: string)
    requires forall e | e in edges :: e.0 in active && e.1 in active
    ensures !Cyclic(edges) && Undominated(active, edges) == {c} <==> Dominates(active, edges, c)
  {
    if !Cyclic(edges) && Undominated(active, edges) == {c} {
      assert c in Undominated(active, edges);
      forall n | n in active && n != c
        ensures exists m :: m in active && (m, n) in edges
      {
        assert n !in Undominated(active, edges);
        var e :| e in edges && e.1 == n;
        assert (e.0, n) in edges;
      }
      forall a | a in active
        ensures Reaches(edges, c, a)
      {
        assert Elems([a]) == {a};
        PredecessorsLead(edges, active, c, [a]);
      }
    }
    if Dominates(active, edges, c) {
      forall n | n in active
        ensures n in Undominated(active, edges) <==> n == c
      {
        if n == c {
          forall e | e in edges
            ensures e.1 != c
          {
            if e.1 == c {
              assert (e.0, c) in edges;
              ReachedLeadsNotBack(edges, c, e.0);
            }
          }
        } else {
          ReachedHasPredecessor(edges, c, n);
        }
      }
      assert Undominated(active, edges) == {c};
    }
  }

  lemma SingletonIs<T>(s: set<T>, c: T)
    requires |s| == 1 && c in s
    ensures s == {c}
  {
    OnlyOne(s);
  }

  predicate AppliesTo(outcome: Outcome, c: string) {
    outcome.Returned? && outcome.resolution.status.Applicable? && outcome.resolution.controlling == Some(c)
  }

  // ----- The resolution in terms of sets ------------------------------------------------

  ghost predicate AllFuture(cat: Catalog, request: Request)
    requires Known(cat, request)
  {
    forall id | id in request.sourceIds :: Assess(cat.sources[id], request).status.NotYetEffective?
  }

  lemma AllFutureMeans(cat: Catalog, request: Request)
    requires Known(cat, request)
    ensures AllFuture(cat, request) <==> forall a | a in Assessments(cat, request) :: a.status.NotYetEffective?
  {
    hide Assess;
    var ids, assessments := request.sourceIds, Assessments(cat, request);
    assert forall i | 0 <= i < |ids| :: assessments[i] == Assess(cat.sources[ids[i]], request);
    if forall a | a in assessments :: a.status.NotYetEffective? {
      forall id | id in ids
        ensures Assess(cat.sources[id], request).status.NotYetEffective?
      {
        var i :| 0 <= i < |ids| && ids[i] == id;
        assert assessments[i] in assessments;
      }
    }
  }

  /** What a resolution says once the gates are passed. Nothing in it depends on an order. */
  ghost predicate Decides(active: set<string>, edges: set<Edge>, inScope: bool, allFuture: bool, r: Resolution) {
    && r.limitations == []
    && if active == {} then
         && r.controlling == None
         && (if allFuture then
               r.status.HistoricalVersionUnavailable? && r.reasons == ["APPLICABILITY_HISTORICAL_VERSION_UNAVAILABLE"]
             else r.status.NotApplicable? && r.reasons == ["APPLICABILITY_NO_ACTIVE_SOURCE"])
       else if !inScope then
         r.controlling == None && r.status.Indeterminate? && r.reasons == ["APPLICABILITY_RELATION_TARGET_NOT_IN_SCOPE"]
       else if Cyclic(edges) then
         r.controlling == None && r.status.Conflicting? && r.reasons == ["APPLICABILITY_RELATION_CYCLE"]
       else if |Undominated(active, edges)| != 1 then
         && r.controlling == None
         && (if edges != {} then r.status.Conflicting? && r.reasons == ["APPLICABILITY_ACTIVE_SOURCES_CONFLICT"]
             else r.status.Indeterminate? && r.reasons == ["APPLICABILITY_RELATION_UNRESOLVED"])
       else
         r.status.Applicable? && r.reasons == [] && r.controlling.Some? && r.controlling.value in Undominated(active, edges)
  }

  /** The relations read before the resolution stops fit into its record. */
  predicate Fits(cat: Catalog, request: Request)
    requires Known(cat, request)
  {
    ActiveIds(cat, request) == {} || |ScanRequest(cat, request).findings| <= MAX_FINDINGS
  }

  lemma ConcludeMeans(request: Request, assessments: seq<Assessment>, active: set<string>, scan: Scan, edges: set<Edge>, allFuture: bool)
    requires active != {} && (scan.inScope ==> Elems(scan.edges) == edges)
    ensures var outcome := Conclude(request, assessments, active, scan);
            && (outcome.Returned? <==> |scan.findings| <= MAX_FINDINGS)
            && (outcome.Returned? ==> Decides(active, edges, scan.inScope, allFuture, outcome.resolution))
  {
    hide Undominated;
    hide Cyclic;
    hide Elems;
  }

  lemma ResolveMeans(cat: Catalog, request: Request)
    requires cat.Valid() && Gate(cat, request).None?
    ensures Resolve(cat, request).Returned? <==> Fits(cat, request)
    ensures Resolve(cat, request).Returned? ==>
              Decides(ActiveIds(cat, request), ActiveEdges(cat, request), TargetsInScope(cat, request), AllFuture(cat, request),
                      Resolve(cat, request).resolution)
  {
    hide Assess;
    hide ScanRequest;
    hide Relations;
    hide Targets;
    GateKnown(cat, request);
    hide Gate;
    ScanRequestMeans(cat, request);
    AllFutureMeans(cat, request);
    hide Assessments;
    hide AllFuture;
    hide ActiveIds;
    hide ActiveEdges;
    hide TargetsInScope;
    hide Elems;
    hide Conclude;
    if ActiveIds(cat, request) != {} {
      ConcludeMeans(request, Assessments(cat, request), ActiveIds(cat, request), ScanRequest(cat, request),
                    ActiveEdges(cat, request), AllFuture(cat, request));
    }
    hide Undominated;
    hide Cyclic;
  }

  /** Whether the relations fit is settled by their number, unless one leads out of scope. */
  lemma FitsMeans(cat: Catalog, request: Request)
    requires cat.Valid() && Known(cat, request)
    ensures |Relations(cat, request.sourceIds)| <= MAX_FINDINGS ==> Fits(cat, request)
    ensures TargetsInScope(cat, request) && ActiveIds(cat, request) != {} ==>
              (Fits(cat, request) <==> |Relations(cat, request.sourceIds)| <= MAX_FINDINGS)
  {
    hide Assess;
    hide ScanRequest;
    hide Relations;
    hide TargetsInScope;
    hide ActiveIds;
    hide ActiveEdges;
    ScanRequestMeans(cat, request);
  }

  lemma ApplicableFits(cat: Catalog, request: Request, c: string)
    requires cat.Valid() && AppliesTo(Resolve(cat, request), c)
    ensures Gate(cat, request).None? && |Relations(cat, request.sourceIds)| <= MAX_FINDINGS
  {
    hide Assess;
    hide ScanRequest;
    hide Relations;
    hide Undominated;
    hide Cyclic;
    hide Assessments;
    if Gate(cat, request).None? {
      ScanRequestMeans(cat, request);
      hide ActiveIds;
    }
  }

  lemma DecidesDominator(active: set<string>, edges: set<Edge>, inScope: bool, allFuture: bool, r: Resolution, c: string)
    requires Decides(active, edges, inScope, allFuture, r)
    requires forall e | e in edges :: e.0 in active && e.1 in active
    ensures r.status.Applicable? && r.controlling == Some(c) <==> inScope && Dominates(active, edges, c)
  {
    UndominatedDominates(active, edges, c);
    var selected := Undominated(active, edges);
    if |selected| == 1 {
      OnlyOne(selected);
      if c in selected {
        SingletonIs(selected, c);
      }
    }
    hide Cyclic;
    hide Undominated;
    if Dominates(active, edges, c) {
      assert selected == {c};
    }
  }

  lemma ControlledByDominator(cat: Catalog, request: Request, c: string)
    requires cat.Valid()
    ensures AppliesTo(Resolve(cat, request), c) <==>
              && Gate(cat, request).None?
              && TargetsInScope(cat, request)
              && |Relations(cat, request.sourceIds)| <= MAX_FINDINGS
              && Dominates(ActiveIds(cat, request), ActiveEdges(cat, request), c)
  {
    hide Resolve;
    hide Relations;
    hide Assess;
    hide Targets;
    if AppliesTo(Resolve(cat, request), c) {
      ApplicableFits(cat, request, c);
    }
    if Gate(cat, request).None? {
      assert Known(cat, request);
      hide Gate;
      FitsMeans(cat, request);
      if |Relations(cat, request.sourceIds)| <= MAX_FINDINGS {
        ResolveMeans(cat, request);
        DecidesDominator(ActiveIds(cat, request), ActiveEdges(cat, request), TargetsInScope(cat, request),
                         AllFuture(cat, request), Resolve(cat, request).resolution, c);
      }
      hide Dominates;
      hide Decides;
      hide TargetsInScope;
      hide AllFuture;
    }
    hide Gate;
  }

  // ----- The same in terms of the records -----------------------------------------------

  /** The relations between sources in force, read off the records. */
  ghost function EdgesInForce(cat: Catalog, request: Request): set<Edge>
    requires Known(cat, request)
  {
    set id, t | id in IdsInForce(cat, request) && t in Targets(cat.sources[id]) && t in IdsInForce(cat, request) :: (id, t)
  }

  /** How many relation targets the sources list in all. */
  ghost function TargetTotal(cat: Catalog, ids: seq<string>): nat
    requires forall id | id in ids :: id in cat.sources
  {
    if ids == [] then 0
    else
      var s := cat.sources[ids[|ids| - 1]];
      TargetTotal(cat, ids[..|ids| - 1]) + |s.specializes| + |s.superior| + |s.supersedes|
  }

  lemma {:induction false} TargetTotalIs(cat: Catalog, ids: seq<string>)
    requires forall id | id in ids :: id in cat.sources
    ensures |Relations(cat, ids)| == TargetTotal(cat, ids)
  {
    hide RelationsOf;
    if ids != [] {
      TargetTotalIs(cat, ids[..|ids| - 1]);
      RelationsOfMeans(cat.sources[ids[|ids| - 1]]);
    }
  }

  lemma InForceAre(cat: Catalog, request: Request)
    requires Known(cat, request)
    ensures ActiveIds(cat, request) == IdsInForce(cat, request)
    ensures ActiveEdges(cat, request) == EdgesInForce(cat, request)
    ensures |Relations(cat, request.sourceIds)| == TargetTotal(cat, request.sourceIds)
  {
    ActiveMeans(cat, request);
    TargetTotalIs(cat, request.sourceIds);
    hide ActiveIds;
    hide IdsInForce;
    hide Targets;
  }

  /** The resolver answers "applicable, controlled by c" exactly when the request is admitted, every
      relation target was requested, the relations fit the record, and c dominates every other
      requested source of the scope that is in force. */
  lemma ControllingSourceDominates(cat: Catalog, request: Request, c: string)
    requires cat.Valid()
    ensures AppliesTo(Resolve(cat, request), c) <==>
              && Admitted(cat, request)
              && TargetsInScope(cat, request)
              && TargetTotal(cat, request.sourceIds) <= 256
              && Dominates(IdsInForce(cat, request), EdgesInForce(cat, request), c)
  {
    ControlledByDominator(cat, request, c);
    GateMeans(cat, request);
    hide Resolve;
    hide AppliesTo;
    hide Gate;
    hide Relations;
    if Admitted(cat, request) {
      assert Known(cat, request);
      InForceAre(cat, request);
    }
    hide Admitted;
    hide Dominates;
    hide TargetsInScope;
    hide IdsInForce;
    hide EdgesInForce;
    hide ActiveIds;
    hide ActiveEdges;
  }

  // ----- What a returned record says ----------------------------------------------------

  ghost predicate AllStartLater(cat: Catalog, request: Request)
    requires Known(cat, request)
  {
    forall id | id in request.sourceIds :: MatchesScope(cat.sources[id], request) && StartsLater(cat.sources[id], request.asOf)
  }

  lemma AllFutureIs(cat: Catalog, request: Request)
    requires Known(cat, request)
    ensures AllFuture(cat, request) <==> AllStartLater(cat, request)
  {
    forall id | id in request.sourceIds
      ensures Assess(cat.sources[id], request).status.NotYetEffective? <==>
                MatchesScope(cat.sources[id], request) && StartsLater(cat.sources[id], request.asOf)
    {
      AssessmentMeans(cat.sources[id], request);
    }
    hide Assess;
    hide MatchesScope;
    hide StartsLater;
  }

  /** The record returned for an admitted request says what the sources in force and the relations
      among them decide: a historical version is unavailable just when every requested source starts
      later. It assesses each requested source in turn. */
  lemma AdmittedRequests(cat: Catalog, request: Request)
    requires cat.Valid() && Admitted(cat, request) && Resolve(cat, request).Returned?
    ensures var r := Resolve(cat, request).resolution;
            && Decides(IdsInForce(cat, request), EdgesInForce(cat, request), TargetsInScope(cat, request), AllStartLater(cat, request), r)
            && r.asOf == request.asOf && r.considered == request.sourceIds && r.resolved == r.status.Applicable?
            && |r.assessments| == |request.sourceIds|
            && forall i | 0 <= i < |request.sourceIds| :: r.assessments[i] == Assess(cat.sources[request.sourceIds[i]], request)
  {
    GateMeans(cat, request);
    ResolveMeans(cat, request);
    InForceAre(cat, request);
    AllFutureIs(cat, request);
    RecordShape(cat, request);
    hide Gate;
    hide Admitted;
    hide Decides;
    hide TargetsInScope;
    hide IdsInForce;
    hide EdgesInForce;
    hide ActiveIds;
    hide ActiveEdges;
    hide AllFuture;
    hide AllStartLater;
    hide Resolve;
    hide Assess;
  }

  lemma ConcludeShape(request: Request, assessments: seq<Assessment>, active: set<string>, scan: Scan)
    requires Conclude(request, assessments, active, scan).Returned?
    ensures var r := Conclude(request, assessments, active, scan).resolution;
            && r.asOf == request.asOf && r.considered == request.sourceIds && r.resolved == r.status.Applicable?
            && r.assessments == assessments && r.findings == scan.findings
  {
    hide Undominated;
    hide Cyclic;
    hide Elems;
  }

  lemma RecordShape(cat: Catalog, request: Request)
    requires Gate(cat, request).None? && Resolve(cat, request).Returned?
    ensures Known(cat, request)
    ensures var r := Resolve(cat, request).resolution;
            && r.asOf == request.asOf && r.considered == request.sourceIds && r.resolved == r.status.Applicable?
            && r.assessments == Assessments(cat, request)
            && r.findings == if ActiveIds(cat, request) == {} then [] else ScanRequest(cat, request).findings
  {
    GateKnown(cat, request);
    hide Gate;
    hide Assessments;
    hide ScanRequest;
    hide ActiveIds;
    hide Conclude;
    if ActiveIds(cat, request) != {} {
      ConcludeShape(request, Assessments(cat, request), ActiveIds(cat, request), ScanRequest(cat, request));
    }
  }

  ghost function TargetsBy(s: Source, kind: RelationKind): seq<string> {
    match kind
    case SpecialToGeneral => s.specializes
    case SuperiorToInferior => s.superior
    case TemporalSuccessor => s.supersedes
  }

  lemma RelationsByKind(s: Source)
    ensures forall r :: r in RelationsOf(s) <==> r.stronger == s.sourceId && r.weaker in TargetsBy(s, r.kind)
  {
    TaggedMeans(SpecialToGeneral, s.sourceId, s.specializes);
    TaggedMeans(SuperiorToInferior, s.sourceId, s.superior);
    TaggedMeans(TemporalSuccessor, s.sourceId, s.supersedes);
  }

  lemma {:induction false} AllRelationsByKind(cat: Catalog, ids: seq<string>)
    requires cat.Valid() && forall id | id in ids :: id in cat.sources
    ensures forall r :: r in Relations(cat, ids) <==> r.stronger in ids && r.weaker in TargetsBy(cat.sources[r.stronger], r.kind)
  {
    hide RelationsOf;
    hide TargetsBy;
    if ids != [] {
      var rest, last := ids[..|ids| - 1], ids[|ids| - 1];
      AllRelationsByKind(cat, rest);
      RelationsByKind(cat.sources[last]);
      assert ids == rest + [last];
    }
  }

  lemma {:induction false} ScanFinds(rs: seq<Relation>, scope: set<string>, active: set<string>)
    requires ScanAll(Scan([], [], true), rs, scope, active).inScope
    ensures forall f :: f in ScanAll(Scan([], [], true), rs, scope, active).findings <==>
                          f.relation in rs && (f.active <==> f.relation.stronger in active && f.relation.weaker in active)
  {
    if rs != [] {
      var rest, last := rs[..|rs| - 1], rs[|rs| - 1];
      ScanFinds(rest, scope, active);
      assert rs == rest + [last];
    }
  }

  lemma ScanRequestFinds(cat: Catalog, request: Request)
    requires cat.Valid() && Known(cat, request) && TargetsInScope(cat, request)
    ensures forall f :: f in ScanRequest(cat, request).findings <==>
                          && f.relation in Relations(cat, request.sourceIds)
                          && (f.active <==> f.relation.stronger in ActiveIds(cat, request) && f.relation.weaker in ActiveIds(cat, request))
  {
    ScanRequestMeans(cat, request);
    hide TargetsInScope;
    hide ActiveIds;
    hide ScanAll;
    hide Relations;
    ScanFinds(Relations(cat, request.sourceIds), Elems(request.sourceIds) * cat.sources.Keys, ActiveIds(cat, request));
  }

  /** When every relation target was requested and some source is in force, the record lists exactly
      the relations of the requested sources by their kinds, each as active when both its ends are in
      force; without a source in force it lists none. */
  lemma FindingsAreRelations(cat: Catalog, request: Request)
    requires cat.Valid() && Admitted(cat, request) && Resolve(cat, request).Returned?
    ensures IdsInForce(cat, request) == {} ==> Resolve(cat, request).resolution.findings == []
    ensures IdsInForce(cat, request) != {} && TargetsInScope(cat, request) ==>
              forall f :: f in Resolve(cat, request).resolution.findings <==>
                            && f.relation.stronger in request.sourceIds
                            && f.relation.weaker in TargetsBy(cat.sources[f.relation.stronger], f.relation.kind)
                            && (f.active <==> f.relation.stronger in IdsInForce(cat, request) && f.relation.weaker in IdsInForce(cat, request))
  {
    GateMeans(cat, request);
    RecordShape(cat, request);
    ActiveMeans(cat, request);
    AllRelationsByKind(cat, request.sourceIds);
    hide Resolve;
    hide Gate;
    hide Admitted;
    hide IdsInForce;
    hide ActiveIds;
    hide TargetsBy;
    hide TargetsInScope;
    hide ScanRequest;
    hide Relations;
    if TargetsInScope(cat, request) {
      ScanRequestFinds(cat, request);
    }
  }

  // ----- Requests that change little ----------------------------------------------------

  /** A relation target out of scope blocks whenever a record is returned at all. */
  lemma OutOfScopeBlocks(cat: Catalog, request: Request)
    requires cat.Valid() && Admitted(cat, request)
    requires !TargetsInScope(cat, request) && IdsInForce(cat, request) != {}
    requires Resolve(cat, request).Returned?
    ensures Resolve(cat, request).resolution.reasons == ["APPLICABILITY_RELATION_TARGET_NOT_IN_SCOPE"]
  {
    GateMeans(cat, request);
    ActiveMeans(cat, request);
    ScanRequestMeans(cat, request);
    hide Gate;
    hide Admitted;
    hide ScanRequest;
    hide Assess;
    hide TargetsInScope;
    hide Undominated;
    hide IdsInForce;
    hide ActiveIds;
  }

  /** Adding an admitted source that is out of the requested scope or not in force, and whose relation
      targets are all requested, leaves an applicable outcome and its controlling source as they were,
      exactly when the record still has room for the relations. */
  lemma InactiveSourceIsNeutral(cat: Catalog, a: Request, b: Request, id: string, c: string)
    requires cat.Valid() && b == a.(sourceIds := a.sourceIds + [id])
    requires Admitted(cat, b)
    requires !MatchesScope(cat.sources[id], b) || !InForce(cat.sources[id], b.asOf)
    requires forall t | t in Targets(cat.sources[id]) :: t in b.sourceIds
    requires AppliesTo(Resolve(cat, a), c)
    ensures AppliesTo(Resolve(cat, b), c) <==> TargetTotal(cat, b.sourceIds) <= 256
  {
    ControllingSourceDominates(cat, a, c);
    ControllingSourceDominates(cat, b, c);
    hide Resolve;
    hide Dominates;
    hide Admitted;
    hide MatchesScope;
    hide InForce;
    SameInForce(cat, a, b, id);
    ScopeGrows(cat, a, b, id);
    hide TargetsInScope;
    hide Targets;
    hide IdsInForce;
    hide EdgesInForce;
    hide AppliesTo;
  }

  lemma ScopeGrows(cat: Catalog, a: Request, b: Request, id: string)
    requires Known(cat, b) && b == a.(sourceIds := a.sourceIds + [id])
    requires forall t | t in Targets(cat.sources[id]) :: t in b.sourceIds
    ensures Known(cat, a)
    ensures TargetsInScope(cat, a) ==> TargetsInScope(cat, b)
  {
    hide Targets;
    assert forall x :: x in b.sourceIds <==> x in a.sourceIds || x == id;
  }

  lemma SameInForce(cat: Catalog, a: Request, b: Request, id: string)
    requires Known(cat, b) && b == a.(sourceIds := a.sourceIds + [id])
    requires !MatchesScope(cat.sources[id], b) || !InForce(cat.sources[id], b.asOf)
    ensures Known(cat, a)
    ensures IdsInForce(cat, b) == IdsInForce(cat, a) && EdgesInForce(cat, b) == EdgesInForce(cat, a)
  {
    hide Targets;
    hide InForce;
    assert forall x :: x in b.sourceIds <==> x in a.sourceIds || x == id;
    assert IdsInForce(cat, b) == IdsInForce(cat, a);
  }

  // ----- The record and its validation --------------------------------------------------

  /** The resolution record's own validator. */
  ghost predicate RecordValid(r: Resolution) {
    && Distinct(r.considered) && Distinct(r.selected)
    && Elems(r.selected) <= Elems(r.considered)
    && (r.controlling.Some? ==> r.controlling.value in r.selected)
    && (r.status.Applicable? ==> r.selected != [] && r.controlling.Some? && r.resolved)
    && (!r.status.Applicable? ==> r.selected == [])
  }

  lemma BlockedIsValid(request: Request, r: Resolution)
    requires request.Valid() && r.considered == request.sourceIds
    requires r.selected == [] && r.controlling == None && !r.status.Applicable?
    ensures RecordValid(r)
  {
  }

  lemma AppliedIsValid(request: Request, r: Resolution, c: string)
    requires request.Valid() && r.considered == request.sourceIds && r.resolved && c in request.sourceIds
    requires r.selected == [c] && r.controlling == Some(c) && r.status.Applicable?
    ensures RecordValid(r)
  {
  }

  /** Whatever the resolver returns passes the record's own validator. */
  lemma RecordsAreValid(cat: Catalog, request: Request)
    requires cat.Valid() && request.Valid()
    ensures Resolve(cat, request).Returned? ==> RecordValid(Resolve(cat, request).resolution)
  {
    var outcome := Resolve(cat, request);
    if outcome.Returned? {
      var r := outcome.resolution;
      ShapeOf(cat, request);
      if r.status.Applicable? {
        AppliedIsValid(request, r, r.controlling.value);
      } else {
        BlockedIsValid(request, r);
      }
      hide Resolve;
      hide RecordValid;
    }
  }

  lemma ActiveAreRequested(cat: Catalog, request: Request)
    requires Known(cat, request)
    ensures forall c, edges | c in Undominated(ActiveIds(cat, request), edges) :: c in request.sourceIds
  {
    hide Assess;
  }

  lemma ShapeOf(cat: Catalog, request: Request)
    requires Resolve(cat, request).Returned?
    ensures var r := Resolve(cat, request).resolution;
            && r.considered == request.sourceIds
            && (if r.status.Applicable? then
                  r.resolved && r.controlling.Some? && r.selected == [r.controlling.value] && r.controlling.value in request.sourceIds
                else r.selected == [] && r.controlling == None)
  {
    hide Assess;
    hide ScanRequest;
    hide Assessments;
    hide Cyclic;
    hide Elems;
    hide Undominated;
    hide ActiveIds;
    if Gate(cat, request).None? {
      GateKnown(cat, request);
      ActiveAreRequested(cat, request);
    }
    hide Gate;
  }

  // ----- Validation of a proposed resolution --------------------------------------------

  datatype Decision = Accepted | Qualified | Refused

  datatype Validation = Validation(decision: Decision, status: Status, selected: seq<string>, reasons: seq<string>)

  /** Recomputes the resolution and compares. Only the applicable resolution the server would
      produce itself is accepted, and then without qualification. */
  method ValidateResolution(cat: Catalog, request: Request, proposed: Resolution) returns (v: Option<Validation>)
    ensures v.None? <==> Resolve(cat, request).Rejected?
    ensures v.Some? ==>
              var expected := Resolve(cat, request).resolution;
              && v.value.status == expected.status
              && !v.value.decision.Qualified?
              && (v.value.decision.Accepted? <==> proposed == expected && expected.status.Applicable?)
              && (v.value.decision.Accepted? ==> v.value.selected == expected.selected && v.value.reasons == [])
              && (v.value.decision.Refused? ==>
                    && v.value.selected == []
                    && v.value.reasons == if proposed == expected then expected.reasons else ["APPLICABILITY_SERVER_RESOLUTION_MISMATCH"])
  {
    var outcome := ResolveRequest(cat, request);
    if outcome.Rejected? {
      return None;
    }
    var expected := outcome.resolution;
    if proposed != expected {
      return Some(Validation(Refused, expected.status, [], ["APPLICABILITY_SERVER_RESOLUTION_MISMATCH"]));
    }
    ApplicableIsClean(cat, request);
    if expected.status.Applicable? {
      var decision := if expected.limitations != [] then Qualified else Accepted;
      return Some(Validation(decision, expected.status, expected.selected, expected.reasons));
    }
    return Some(Validation(Refused, expected.status, [], expected.reasons));
  }

  lemma ApplicableIsClean(cat: Catalog, request: Request)
    ensures var o := Resolve(cat, request);
            o.Returned? && o.resolution.status.Applicable? ==> o.resolution.limitations == [] == o.resolution.reasons
  {
    hide Assess;
    hide ScanRequest;
    hide Assessments;
    hide Cyclic;
    hide Elems;
    hide Undominated;
    hide ActiveIds;
    if Gate(cat, request).None? {
      GateKnown(cat, request);
    }
    hide Gate;
  }
}
