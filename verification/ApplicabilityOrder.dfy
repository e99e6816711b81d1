/** What the order of a request can change: never the answer, and exactly when whether a record is
    returned at all. */
module ApplicabilityOrder {
  import opened Collections
  import opened Graphs
  import opened Applicability
  import opened ApplicabilityFacts
  import opened ApplicabilityLaws

  // ----- What no order changes ----------------------------------------------------------

  ghost predicate SameRequest(a: Request, b: Request) {
    && a.Valid() && b.Valid()
    && Elems(a.sourceIds) == Elems(b.sourceIds) && a.asOf == b.asOf && a.scopeKey == b.scopeKey
  }

  ghost predicate Agree(x: Resolution, y: Resolution) {
    x.status == y.status && x.controlling == y.controlling && x.reasons == y.reasons && x.limitations == y.limitations
  }

  /** The number of relations depends on which sources are requested, not on their order. */
  /** Taking one source out of a list takes out its own relations. */
  lemma TakeOut(cat: Catalog, ids: seq<string>, j: nat)
    requires j < |ids| && forall id | id in ids :: id in cat.sources
    ensures |Relations(cat, ids)| == |Relations(cat, ids[..j] + ids[j + 1..])| + |RelationsOf(cat.sources[ids[j]])|
  {
    hide RelationsOf;
    var others := ids[..j] + ids[j + 1..];
    RelationsSplit(cat, ids, j);
    RelationsSplit(cat, ids[j..], 1);
    assert ids[j..][..1] == [ids[j]] && ids[j..][1..] == ids[j + 1..];
    RelationsSplit(cat, others, j);
    assert others[..j] == ids[..j] && others[j..] == ids[j + 1..];
    assert [ids[j]][..0] == [];
    assert Relations(cat, [ids[j]]) == RelationsOf(cat.sources[ids[j]]);
  }

  lemma WithoutOne(ids: seq<string>, j: nat)
    requires j < |ids| && Distinct(ids)
    ensures var others := ids[..j] + ids[j + 1..];
            Distinct(others) && Elems(others) == Elems(ids) - {ids[j]}
  {
  }

  lemma {:induction false} RelationCountStable(cat: Catalog, a: seq<string>, b: seq<string>)
    requires forall id | id in a :: id in cat.sources
    requires Distinct(a) && Distinct(b) && Elems(a) == Elems(b)
    ensures forall id | id in b :: id in cat.sources
    ensures |Relations(cat, a)| == |Relations(cat, b)|
    decreases |a|
  {
    hide RelationsOf;
    hide Relations;
    DistinctCardinality(a);
    DistinctCardinality(b);
    forall id | id in b
      ensures id in cat.sources
    {
      assert id in Elems(b);
    }
    if a != [] {
      assert a[0] in Elems(b);
      var j :| 0 <= j < |b| && b[j] == a[0];
      WithoutOne(a, 0);
      WithoutOne(b, j);
      hide Distinct;
      hide Elems;
      TakeOut(cat, a, 0);
      TakeOut(cat, b, j);
      assert a[..0] + a[1..] == a[1..];
      RelationCountStable(cat, a[1..], b[..j] + b[j + 1..]);
    } else {
      assert b == [];
    }
  }

  lemma SameMembers(a: Request, b: Request)
    requires SameRequest(a, b)
    ensures forall id :: id in a.sourceIds <==> id in b.sourceIds
  {
    forall id
      ensures id in a.sourceIds <==> id in b.sourceIds
    {
      assert id in Elems(a.sourceIds) <==> id in Elems(b.sourceIds);
    }
  }

  lemma SameSets(cat: Catalog, a: Request, b: Request)
    requires SameRequest(a, b) && Known(cat, a)
    ensures Known(cat, b)
    ensures ActiveIds(cat, a) == ActiveIds(cat, b)
    ensures ActiveEdges(cat, a) == ActiveEdges(cat, b)
    ensures TargetsInScope(cat, a) <==> TargetsInScope(cat, b)
    ensures AllFuture(cat, a) <==> AllFuture(cat, b)
  {
    hide Targets;
    hide TemporalAssessment;
    SameMembers(a, b);
    hide Elems;
    assert ActiveIds(cat, a) == ActiveIds(cat, b);
  }

  lemma GateStable(cat: Catalog, a: Request, b: Request)
    requires SameRequest(a, b)
    ensures Gate(cat, a) == Gate(cat, b)
  {
  }

  lemma GatedAlike(cat: Catalog, a: Request, b: Request)
    requires Gate(cat, a).Some? && Gate(cat, b) == Gate(cat, a)
    ensures var x, y := Resolve(cat, a), Resolve(cat, b);
            x.Returned? && y.Returned? && Agree(x.resolution, y.resolution)
  {
    hide Gate;
  }

  lemma DecidesAlike(active: set<string>, edges: set<Edge>, inScope: bool, allFuture: bool, x: Resolution, y: Resolution)
    requires Decides(active, edges, inScope, allFuture, x) && Decides(active, edges, inScope, allFuture, y)
    ensures Agree(x, y)
  {
    var selected := Undominated(active, edges);
    hide Undominated;
    hide Cyclic;
    if |selected| == 1 {
      OnlyOne(selected);
    }
  }

  // ----- How far the relations are read -------------------------------------------------

  /** How many relations are read before the first that leads out of scope. */
  function LeadIn(rs: seq<Relation>, scope: set<string>): (k: nat)
    ensures k <= |rs|
  {
    if rs == [] then 0
    else
      var k := LeadIn(rs[..|rs| - 1], scope);
      if k == |rs| - 1 && rs[|rs| - 1].weaker in scope then |rs| else k
  }

  lemma {:induction false} LeadInMeans(rs: seq<Relation>, scope: set<string>)
    ensures forall i | 0 <= i < LeadIn(rs, scope) :: rs[i].weaker in scope
    ensures LeadIn(rs, scope) < |rs| ==> rs[LeadIn(rs, scope)].weaker !in scope
  {
    if rs != [] {
      LeadInMeans(rs[..|rs| - 1], scope);
    }
  }

  lemma {:induction false} LeadInConcat(a: seq<Relation>, b: seq<Relation>, scope: set<string>)
    ensures LeadIn(a + b, scope) == if LeadIn(a, scope) < |a| then LeadIn(a, scope) else |a| + LeadIn(b, scope)
  {
    if b == [] {
      assert a + b == a;
    } else {
      LeadInConcat(a, b[..|b| - 1], scope);
      assert (a + b)[..|a + b| - 1] == a + b[..|b| - 1];
    }
  }

  lemma {:induction false} ScanReads(rs: seq<Relation>, scope: set<string>, active: set<string>)
    ensures var sc := ScanAll(Scan([], [], true), rs, scope, active);
            |sc.findings| == LeadIn(rs, scope) && (sc.inScope <==> LeadIn(rs, scope) == |rs|)
  {
    if rs != [] {
      ScanReads(rs[..|rs| - 1], scope, active);
    }
  }

  /** A source with a relation target outside the request. */
  predicate Strays(s: Source, scope: set<string>) {
    exists t | t in Targets(s) :: t !in scope
  }

  lemma StraysMeans(s: Source, scope: set<string>)
    ensures Strays(s, scope) <==> LeadIn(RelationsOf(s), scope) < |RelationsOf(s)|
  {
    RelationsOfMeans(s);
    LeadInMeans(RelationsOf(s), scope);
    hide RelationsOf;
    hide Targets;
    var k := LeadIn(RelationsOf(s), scope);
    if k < |RelationsOf(s)| {
      assert RelationsOf(s)[k] in RelationsOf(s);
    }
  }

  lemma {:induction false} LoyalLeadIn(cat: Catalog, ids: seq<string>, scope: set<string>)
    requires forall id | id in ids :: id in cat.sources && !Strays(cat.sources[id], scope)
    ensures LeadIn(Relations(cat, ids), scope) == |Relations(cat, ids)|
  {
    hide RelationsOf;
    hide Strays;
    if ids != [] {
      var rest, last := ids[..|ids| - 1], ids[|ids| - 1];
      LoyalLeadIn(cat, rest, scope);
      StraysMeans(cat.sources[last], scope);
      LeadInConcat(Relations(cat, rest), RelationsOf(cat.sources[last]), scope);
    }
  }

  /** Source i is the first to stray: reading stops within its relations. */
  ghost predicate FirstStray(cat: Catalog, request: Request, i: nat)
    requires Known(cat, request)
  {
    && i < |request.sourceIds|
    && Strays(cat.sources[request.sourceIds[i]], Elems(request.sourceIds))
    && forall j | 0 <= j < i :: !Strays(cat.sources[request.sourceIds[j]], Elems(request.sourceIds))
  }

  lemma SplitAt(cat: Catalog, ids: seq<string>, i: nat)
    requires i < |ids| && forall id | id in ids :: id in cat.sources
    ensures Relations(cat, ids) == Relations(cat, ids[..i]) + (RelationsOf(cat.sources[ids[i]]) + Relations(cat, ids[i + 1..]))
  {
    hide RelationsOf;
    RelationsSplit(cat, ids, i);
    RelationsSplit(cat, ids[i..], 1);
    assert ids[i..][..1] == [ids[i]] && ids[i..][1..] == ids[i + 1..];
    assert [ids[i]][..0] == [];
    assert Relations(cat, [ids[i]]) == RelationsOf(cat.sources[ids[i]]);
  }

  /** A request reads all relations of the sources before the first stray one, and that one's
      up to the target that is out of scope. */
  lemma ReadsUpTo(cat: Catalog, request: Request, i: nat)
    requires Known(cat, request) && FirstStray(cat, request, i)
    ensures |ScanRequest(cat, request).findings|
            == |Relations(cat, request.sourceIds[..i])|
               + LeadIn(RelationsOf(cat.sources[request.sourceIds[i]]), Elems(request.sourceIds))
  {
    hide RelationsOf;
    hide Strays;
    hide ActiveIds;
    var ids, scope := request.sourceIds, Elems(request.sourceIds);
    var first, own := Relations(cat, ids[..i]), RelationsOf(cat.sources[ids[i]]);
    var rest := Relations(cat, ids[i + 1..]);
    SplitAt(cat, ids, i);
    LoyalLeadIn(cat, ids[..i], scope);
    StraysMeans(cat.sources[ids[i]], scope);
    assert scope * cat.sources.Keys == scope;
    hide Relations;
    LeadInConcat(own, rest, scope);
    LeadInConcat(first, own + rest, scope);
    ScanReads(Relations(cat, ids), scope, ActiveIds(cat, request));
  }

  // ----- Parts of a request -------------------------------------------------------------

  /** The identifiers that belong to a part, in their order. */
  function Keep(ids: seq<string>, part: set<string>): seq<string> {
    if ids == [] then []
    else
      var last := ids[|ids| - 1];
      Keep(ids[..|ids| - 1], part) + if last in part then [last] else []
  }

  lemma {:induction false} KeepIs(ids: seq<string>, part: set<string>)
    ensures Elems(Keep(ids, part)) == Elems(ids) * part
    ensures Distinct(ids) ==> Distinct(Keep(ids, part))
    ensures Elems(ids) <= part ==> Keep(ids, part) == ids
  {
    if ids != [] {
      var rest, last := ids[..|ids| - 1], ids[|ids| - 1];
      KeepIs(rest, part);
      assert ids == rest + [last];
      ElemsAppend(rest, last);
      ElemsAppend(Keep(rest, part), last);
      DistinctAppend(rest, last);
      DistinctAppend(Keep(rest, part), last);
      assert last in Keep(rest, part) <==> last in Elems(Keep(rest, part));
      assert last in rest <==> last in Elems(rest);
      hide Distinct;
      assert Keep(ids, part) == if last in part then Keep(rest, part) + [last] else Keep(rest, part);
      hide Keep;
      hide Elems;
    }
  }

  lemma {:induction false} KeepConcat(a: seq<string>, b: seq<string>, part: set<string>)
    ensures Keep(a + b, part) == Keep(a, part) + Keep(b, part)
  {
    if b == [] {
      assert a + b == a;
    } else {
      KeepConcat(a, b[..|b| - 1], part);
      assert (a + b)[..|a + b| - 1] == a + b[..|b| - 1];
    }
  }

  // ----- When the order decides ---------------------------------------------------------

  function LoyalIds(cat: Catalog, request: Request): set<string>
    requires Known(cat, request)
  {
    set id | id in request.sourceIds && !Strays(cat.sources[id], Elems(request.sourceIds))
  }

  /** The relations of all sources that do not stray. */
  function LoyalCount(cat: Catalog, request: Request): nat
    requires Known(cat, request)
  {
    KeepIs(request.sourceIds, LoyalIds(cat, request));
    assert forall id | id in Keep(request.sourceIds, LoyalIds(cat, request)) :: id in Elems(request.sourceIds) * LoyalIds(cat, request);
    |Relations(cat, Keep(request.sourceIds, LoyalIds(cat, request)))|
  }

  /** How much of a source is read before it strays. */
  function OwnLeadIn(cat: Catalog, request: Request, id: string): nat
    requires Known(cat, request) && id in request.sourceIds
  {
    LeadIn(RelationsOf(cat.sources[id]), Elems(request.sourceIds))
  }

  predicate StraysIn(cat: Catalog, request: Request, id: string)
    requires Known(cat, request)
  {
    id in request.sourceIds && Strays(cat.sources[id], Elems(request.sourceIds))
  }

  /** Read after all sources that do not stray, some stray source exceeds the record. */
  predicate CanExceed(cat: Catalog, request: Request)
    requires Known(cat, request)
  {
    exists id | id in request.sourceIds ::
      StraysIn(cat, request, id) && LoyalCount(cat, request) + OwnLeadIn(cat, request, id) > 256
  }

  /** Read first, some stray source stops the reading while the record has room. */
  predicate CanStop(cat: Catalog, request: Request)
    requires Known(cat, request)
  {
    exists id | id in request.sourceIds :: StraysIn(cat, request, id) && OwnLeadIn(cat, request, id) <= 256
  }

  /** What a caller can read off the catalog and the request: whether its order decides that a record
      is returned. */
  ghost predicate OrderSensitive(cat: Catalog, request: Request) {
    Admitted(cat, request) && IdsInForce(cat, request) != {} && CanExceed(cat, request) && CanStop(cat, request)
  }

  lemma SensitiveMeans(cat: Catalog, request: Request)
    ensures OrderSensitive(cat, request) <==>
              && Gate(cat, request).None? && Known(cat, request)
              && ActiveIds(cat, request) != {} && CanExceed(cat, request) && CanStop(cat, request)
  {
    GateMeans(cat, request);
    hide Gate;
    if Known(cat, request) {
      ActiveMeans(cat, request);
    }
    hide ActiveIds;
    hide IdsInForce;
    hide CanExceed;
    hide CanStop;
  }

  lemma SomeStray(cat: Catalog, request: Request) returns (i: nat)
    requires Known(cat, request) && !TargetsInScope(cat, request)
    ensures FirstStray(cat, request, i)
  {
    hide Targets;
    var ids, scope := request.sourceIds, Elems(request.sourceIds);
    ghost var id, t :| id in ids && t in Targets(cat.sources[id]) && t !in ids;
    assert t !in scope && Strays(cat.sources[id], scope);
    ghost var k :| 0 <= k < |ids| && ids[k] == id;
    hide Strays;
    i := 0;
    while !Strays(cat.sources[ids[i]], scope)
      invariant i <= k && forall j | 0 <= j < i :: !Strays(cat.sources[ids[j]], scope)
      decreases k - i
    {
      i := i + 1;
    }
  }

  /** What an order reads before its first stray source, all sources that do not stray could supply. */
  lemma LoyalBefore(cat: Catalog, request: Request, i: nat)
    requires Known(cat, request) && FirstStray(cat, request, i)
    ensures |Relations(cat, request.sourceIds[..i])| <= LoyalCount(cat, request)
  {
    hide RelationsOf;
    hide Strays;
    var ids, loyal := request.sourceIds, LoyalIds(cat, request);
    assert ids == ids[..i] + ids[i..];
    KeepConcat(ids[..i], ids[i..], loyal);
    KeepIs(ids, loyal);
    KeepIs(ids[..i], loyal);
    assert forall id | id in Keep(ids, loyal) :: id in Elems(ids) * loyal;
    assert Keep(ids, loyal)[..i] == ids[..i];
    RelationsSplit(cat, Keep(ids, loyal), i);
  }

  lemma SameParts(cat: Catalog, a: Request, b: Request)
    requires SameRequest(a, b) && Known(cat, a)
    ensures Known(cat, b)
    ensures LoyalCount(cat, a) == LoyalCount(cat, b)
    ensures forall id :: StraysIn(cat, a, id) <==> StraysIn(cat, b, id)
    ensures forall id | id in a.sourceIds && id in b.sourceIds :: OwnLeadIn(cat, a, id) == OwnLeadIn(cat, b, id)
  {
    hide Strays;
    SameMembers(a, b);
    assert LoyalIds(cat, a) == LoyalIds(cat, b);
    KeepIs(a.sourceIds, LoyalIds(cat, a));
    KeepIs(b.sourceIds, LoyalIds(cat, b));
    assert forall id | id in Keep(a.sourceIds, LoyalIds(cat, a)) :: id in Elems(a.sourceIds) * LoyalIds(cat, a);
    hide LoyalIds;
    hide Elems;
    RelationCountStable(cat, Keep(a.sourceIds, LoyalIds(cat, a)), Keep(b.sourceIds, LoyalIds(cat, b)));
  }

  /** With a target out of scope, an order that exceeds the record shows that some can, and
      one that is answered that some source can stop the reading in time. */
  lemma OrderShows(cat: Catalog, a: Request, b: Request)
    requires SameRequest(a, b) && Known(cat, a) && !TargetsInScope(cat, a)
    ensures Known(cat, b)
    ensures if |ScanRequest(cat, b).findings| > MAX_FINDINGS then CanExceed(cat, a) else CanStop(cat, a)
  {
    hide Targets;
    hide ScanRequest;
    SameSets(cat, a, b);
    SameParts(cat, a, b);
    var i := SomeStray(cat, b);
    ReadsUpTo(cat, b, i);
    LoyalBefore(cat, b, i);
    var id := b.sourceIds[i];
    SameMembers(a, b);
    assert StraysIn(cat, a, id);
    hide LoyalCount;
  }

  // ----- The two witnesses --------------------------------------------------------------

  /** The same sources: those of a part first, then one more, then the rest. */
  function Rearranged(request: Request, part: set<string>, id: string): Request {
    request.(sourceIds := Keep(request.sourceIds, part) + [id] + Keep(request.sourceIds, Elems(request.sourceIds) - part - {id}))
  }

  lemma RearrangedIsSame(request: Request, part: set<string>, id: string)
    requires request.Valid() && id in request.sourceIds && id !in part
    ensures SameRequest(request, Rearranged(request, part, id))
  {
    var ids := request.sourceIds;
    var first, rest := Keep(ids, part), Keep(ids, Elems(ids) - part - {id});
    KeepIs(ids, part);
    KeepIs(ids, Elems(ids) - part - {id});
    assert id in Elems(ids);
    DistinctAppend(first, id);
    assert id in first <==> id in Elems(first);
    ElemsAppend(first, id);
    DistinctConcat(first + [id], rest);
    ElemsConcat(first + [id], rest);
    hide Distinct;
    hide Elems;
    hide Keep;
  }

  lemma RearrangedReads(cat: Catalog, a: Request, part: set<string>, id: string)
    requires a.Valid() && Known(cat, a) && StraysIn(cat, a, id)
    requires part <= LoyalIds(cat, a)
    ensures var b := Rearranged(a, part, id);
            && Known(cat, b)
            && (part == {} ==> |ScanRequest(cat, b).findings| == OwnLeadIn(cat, a, id))
            && (part == LoyalIds(cat, a) ==> |ScanRequest(cat, b).findings| == LoyalCount(cat, a) + OwnLeadIn(cat, a, id))
  {
    hide Strays;
    hide ScanRequest;
    hide Keep;
    hide Distinct;
    hide RelationsOf;
    hide LeadIn;
    var b, first := Rearranged(a, part, id), Keep(a.sourceIds, part);
    assert id !in part;
    RearrangedIsSame(a, part, id);
    SameMembers(a, b);
    SameParts(cat, a, b);
    KeepIs(a.sourceIds, part);
    assert b.sourceIds[..|first|] == first && b.sourceIds[|first|] == id;
    forall j | 0 <= j < |first|
      ensures !Strays(cat.sources[b.sourceIds[j]], Elems(b.sourceIds))
    {
      assert first[j] in Elems(first);
    }
    assert StraysIn(cat, b, id);
    ReadsUpTo(cat, b, |first|);
    if part == {} {
      EmptyElems(first);
    }
  }

  /** Orders of one request in which one gets a record and another does not exist exactly when
      the request is order-sensitive. */
  lemma OrderMattersExactly(cat: Catalog, a: Request)
    requires cat.Valid() && a.Valid()
    ensures (exists b, c :: SameRequest(a, b) && SameRequest(a, c) && Resolve(cat, b).Rejected? && Resolve(cat, c).Returned?) <==>
              OrderSensitive(cat, a)
  {
    hide Resolve;
    hide ActiveIds;
    hide CanExceed;
    hide CanStop;
    if b, c :| SameRequest(a, b) && SameRequest(a, c) && Resolve(cat, b).Rejected? && Resolve(cat, c).Returned? {
      OrderMattered(cat, a, b, c);
    }
    if OrderSensitive(cat, a) {
      var b, c := SensitiveOrders(cat, a);
    }
  }

  lemma OrderMattered(cat: Catalog, a: Request, b: Request, c: Request)
    requires cat.Valid() && SameRequest(a, b) && SameRequest(a, c)
    requires Resolve(cat, b).Rejected? && Resolve(cat, c).Returned?
    ensures OrderSensitive(cat, a)
  {
    SensitiveMeans(cat, a);
    hide OrderSensitive;
    hide CanExceed;
    hide CanStop;
    GateStable(cat, a, b);
    GateStable(cat, a, c);
    RejectedPassed(cat, b);
    hide Gate;
    hide Resolve;
    GateKnown(cat, a);
    SameSets(cat, a, b);
    SameSets(cat, a, c);
    ResolveMeans(cat, b);
    ResolveMeans(cat, c);
    FitsMeans(cat, b);
    FitsMeans(cat, c);
    RelationCountStable(cat, b.sourceIds, c.sourceIds);
    hide ActiveIds;
    hide TargetsInScope;
    hide Relations;
    hide ScanRequest;
    OrderShows(cat, a, b);
    OrderShows(cat, a, c);
  }

  lemma RejectedPassed(cat: Catalog, b: Request)
    requires Resolve(cat, b).Rejected?
    ensures Gate(cat, b).None?
  {
    hide Gate;
  }

  lemma SensitiveOrders(cat: Catalog, a: Request) returns (b: Request, c: Request)
    requires cat.Valid() && a.Valid() && OrderSensitive(cat, a)
    ensures SameRequest(a, b) && SameRequest(a, c) && Resolve(cat, b).Rejected? && Resolve(cat, c).Returned?
  {
    SensitiveMeans(cat, a);
    hide OrderSensitive;
    var slow :| slow in a.sourceIds && StraysIn(cat, a, slow) && LoyalCount(cat, a) + OwnLeadIn(cat, a, slow) > MAX_FINDINGS;
    var quick :| quick in a.sourceIds && StraysIn(cat, a, quick) && OwnLeadIn(cat, a, quick) <= MAX_FINDINGS;
    b, c := Rearranged(a, LoyalIds(cat, a), slow), Rearranged(a, {}, quick);
    RearrangedReads(cat, a, LoyalIds(cat, a), slow);
    RearrangedReads(cat, a, {}, quick);
    RearrangedIsSame(a, LoyalIds(cat, a), slow);
    RearrangedIsSame(a, {}, quick);
    GateStable(cat, a, b);
    GateStable(cat, a, c);
    hide Gate;
    hide Resolve;
    SameSets(cat, a, b);
    SameSets(cat, a, c);
    ResolveMeans(cat, b);
    ResolveMeans(cat, c);
    hide ActiveIds;
    hide LoyalIds;
    hide LoyalCount;
    hide ScanRequest;
  }

  /** Two requests for the same sources in different orders get the same status, controlling
      source, reasons and limitations whenever both get a resolution; and both or neither do,
      unless the request is order-sensitive. */
  lemma OrderDoesNotMatter(cat: Catalog, a: Request, b: Request)
    requires cat.Valid() && SameRequest(a, b)
    ensures var x, y := Resolve(cat, a), Resolve(cat, b);
            && (x.Returned? && y.Returned? ==> Agree(x.resolution, y.resolution))
            && (!OrderSensitive(cat, a) ==> (x.Returned? <==> y.Returned?))
  {
    hide Resolve;
    hide OrderSensitive;
    assert SameRequest(a, a);
    OrderMattersExactly(cat, a);
    GateStable(cat, a, b);
    if Gate(cat, a).None? {
      GateKnown(cat, a);
      hide Gate;
      SameSets(cat, a, b);
      ResolveMeans(cat, a);
      ResolveMeans(cat, b);
      if Resolve(cat, a).Returned? && Resolve(cat, b).Returned? {
        DecidesAlike(ActiveIds(cat, a), ActiveEdges(cat, a), TargetsInScope(cat, a), AllFuture(cat, a),
                     Resolve(cat, a).resolution, Resolve(cat, b).resolution);
      }
      hide Decides;
      hide Fits;
      hide ActiveIds;
      hide ActiveEdges;
      hide TargetsInScope;
      hide AllFuture;
    } else {
      GatedAlike(cat, a, b);
    }
  }

  /** A request is settled in every order when its targets are all requested, or its relations few. */
  lemma SettledRequests(cat: Catalog, request: Request)
    requires cat.Valid() && request.Valid() && Known(cat, request)
    requires TargetsInScope(cat, request) || |Relations(cat, request.sourceIds)| <= MAX_FINDINGS
    ensures !OrderSensitive(cat, request)
  {
    hide OrderSensitive;
    hide Resolve;
    if OrderSensitive(cat, request) {
      OrderMattersExactly(cat, request);
      var b, c :| SameRequest(request, b) && SameRequest(request, c) && Resolve(cat, b).Rejected? && Resolve(cat, c).Returned?;
      RejectedPassed(cat, b);
      hide Gate;
      SameSets(cat, request, b);
      SameSets(cat, request, c);
      RelationCountStable(cat, request.sourceIds, b.sourceIds);
      RelationCountStable(cat, request.sourceIds, c.sourceIds);
      GateStable(cat, b, c);
      ResolveMeans(cat, b);
      ResolveMeans(cat, c);
      FitsMeans(cat, b);
      FitsMeans(cat, c);
      hide Fits;
      hide TargetsInScope;
      hide Relations;
      hide ActiveIds;
      assert false;
    }
  }
}
