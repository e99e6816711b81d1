/** Where the order of a request does matter: too many relations, and one that leads out of scope. */
module ApplicabilityExamples {
  import opened Collections
  import opened Graphs
  import opened Applicability
  import opened ApplicabilityLaws
  import opened ApplicabilityOrder

  /** A source that leads out of scope with the first relation it names. */
  ghost predicate StraysAtOnce(s: Source, ids: seq<string>) {
    s.specializes == [] && s.superior != [] && s.superior[0] !in ids
  }

  /** The same sources, with the stray one last or first: read last, it comes too late when the
      others alone have too many relations for the record; read first, it stops the reading. */
  lemma StrayLastOrFirst(cat: Catalog, ids: seq<string>, stray: string, asOf: int, scopeKey: Option<string>)
    requires cat.Valid()
    requires var a := Request(ids + [stray], asOf, scopeKey); Gate(cat, a).None? && ActiveIds(cat, a) != {}
    requires StraysAtOnce(cat.sources[stray], ids + [stray])
    requires forall id, t | id in ids && t in Targets(cat.sources[id]) :: t in ids + [stray]
    ensures Resolve(cat, Request(ids + [stray], asOf, scopeKey)).Rejected? <==> |Relations(cat, ids)| > MAX_FINDINGS
    ensures Resolve(cat, Request([stray] + ids, asOf, scopeKey)).Returned?
  {
    var a, b := Request(ids + [stray], asOf, scopeKey), Request([stray] + ids, asOf, scopeKey);
    hide Targets;
    hide Assess;
    hide Resolve;
    SameElements(ids, stray);
    GateFree(cat, a, b);
    ActiveFree(cat, a, b);
    hide Gate;
    hide ActiveIds;
    StrayLeadIn(cat.sources[stray], ids + [stray]);
    hide StraysAtOnce;
    assert a.sourceIds[..|ids|] == ids && b.sourceIds[..0] == [];
    assert forall id | id in ids :: id in ids + [stray] && !Strays(cat.sources[id], Elems(ids + [stray]));
    hide Strays;
    ReadsUpTo(cat, a, |ids|);
    ReadsUpTo(cat, b, 0);
    ResolveMeans(cat, a);
    ResolveMeans(cat, b);
  }

  lemma SameElements(ids: seq<string>, stray: string)
    ensures Elems(ids + [stray]) == Elems([stray] + ids)
    ensures forall id :: id in ids + [stray] <==> id in [stray] + ids
  {
  }

  lemma GateFree(cat: Catalog, a: Request, b: Request)
    requires Elems(a.sourceIds) == Elems(b.sourceIds)
    ensures Gate(cat, a) == Gate(cat, b)
    ensures Gate(cat, a).None? ==> Known(cat, a) && Known(cat, b)
  {
    assert forall id | id in a.sourceIds :: id in Elems(a.sourceIds);
    assert forall id | id in b.sourceIds :: id in Elems(b.sourceIds);
  }

  lemma ActiveFree(cat: Catalog, a: Request, b: Request)
    requires Known(cat, a) && Known(cat, b) && a.asOf == b.asOf && a.scopeKey == b.scopeKey
    requires forall id :: id in a.sourceIds <==> id in b.sourceIds
    ensures ActiveIds(cat, a) == ActiveIds(cat, b)
  {
    hide TemporalAssessment;
  }

  lemma StrayLeadIn(s: Source, ids: seq<string>)
    requires StraysAtOnce(s, ids)
    ensures Strays(s, Elems(ids)) && LeadIn(RelationsOf(s), Elems(ids)) == 0
  {
    TaggedSplit(SuperiorToInferior, s.sourceId, s.superior, 1);
    assert s.superior[..1][..0] == [] && s.superior[..1] == [s.superior[0]];
    assert RelationsOf(s)[0].weaker == s.superior[0];
    assert s.superior[0] in Targets(s);
    LeadInMeans(RelationsOf(s), Elems(ids));
    hide RelationsOf;
  }

  // ----- A catalog that has it happen ---------------------------------------------------

  const COUNT := 50

  /** The identifiers x, xx, xxx and so on. */
  function Name(k: nat): string {
    seq(k, _ => 'x')
  }

  function Names(from: nat): seq<string>
    requires from <= COUNT
  {
    seq(COUNT - from, i requires 0 <= i < COUNT - from => Name(from + i + 1))
  }

  function Record(id: string, specializes: seq<string>, superior: seq<string>, supersedes: seq<string>): Source {
    Source(id, None, None, None, None, specializes, superior, supersedes, true, OfficialVerified)
  }

  /** Two sources relate to all other names in every way, one leads out of scope, the rest are bare. */
  function Entry(id: string): Source {
    if id == Name(1) then Record(id, Names(1), Names(1), Names(1))
    else if id == Name(2) then Record(id, Names(2), Names(2), Names(2))
    else if id == "z" then Record(id, [], ["w"], [])
    else Record(id, [], [], [])
  }

  function Crowd(): Catalog {
    Catalog(map id | id in Elems(Names(0)) + {"z"} :: Entry(id), Some(Names(0) + ["z"]))
  }

  lemma NamesAre(from: nat)
    requires from <= COUNT
    ensures |Names(from)| == COUNT - from && Distinct(Names(from))
    ensures forall k | from < k <= COUNT :: Name(k) in Names(from)
    ensures forall n | n in Names(from) :: exists k :: from < k <= COUNT && n == Name(k)
    ensures "z" !in Names(from) && "w" !in Names(from)
  {
    forall k | from < k <= COUNT
      ensures Name(k) in Names(from)
    {
      assert Names(from)[k - from - 1] == Name(k);
    }
    forall i, j | 0 <= i < j < |Names(from)|
      ensures Names(from)[i] != Names(from)[j]
    {
      assert |Names(from)[i]| != |Names(from)[j]|;
    }
    forall n | n in Names(from)
      ensures exists k :: from < k <= COUNT && n == Name(k)
    {
      var i :| 0 <= i < |Names(from)| && Names(from)[i] == n;
      assert n == Name(from + i + 1);
    }
    forall k | from < k <= COUNT
      ensures Name(k)[0] == 'x'
    {
    }
  }

  lemma NameAbsent(k: nat, from: nat)
    requires 0 < k <= from <= COUNT
    ensures Name(k) !in Names(from)
  {
    NamesAre(from);
    forall j | from < j <= COUNT
      ensures Name(j) != Name(k)
    {
      assert |Name(j)| == j;
    }
    hide Names;
  }

  lemma NamesShrink(from: nat)
    requires from <= COUNT
    ensures forall n | n in Names(from) :: n in Names(0)
  {
    NamesAre(from);
    NamesAre(0);
    hide Names;
  }

  lemma EntryIsValid(id: string)
    ensures Entry(id).sourceId == id && Entry(id).Valid()
    ensures Entry(id).serverOwned && Entry(id).Trusted()
    ensures id in Names(0) ==> forall t | t in Targets(Entry(id)) :: t in Names(0)
    ensures forall request: Request | request.scopeKey.None? :: Assess(Entry(id), request).active
  {
    NamesAre(0);
    NamesAre(1);
    NamesAre(2);
    NameAbsent(1, 1);
    NameAbsent(2, 2);
    NamesShrink(1);
    NamesShrink(2);
    hide Names;
    hide Name;
  }

  lemma CrowdIsValid()
    ensures Crowd().Valid()
    ensures forall id, t | id in Names(0) && t in Targets(Crowd().sources[id]) :: t in Names(0)
    ensures forall id | id in Names(0) + ["z"] :: id in Crowd().sources && Crowd().sources[id] == Entry(id)
  {
    forall id
      ensures Entry(id).sourceId == id && Entry(id).Valid()
      ensures id in Names(0) ==> forall t | t in Targets(Entry(id)) :: t in Names(0)
    {
      EntryIsValid(id);
    }
    hide Entry;
    hide Names;
    hide Targets;
  }

  lemma GateOpens(cat: Catalog, request: Request)
    requires cat.serverIds == Some(request.sourceIds) && request.Valid()
    requires forall id | id in request.sourceIds :: IsIdentifier(id) && id in cat.sources && cat.sources[id].serverOwned && cat.sources[id].Trusted()
    ensures Gate(cat, request).None?
  {
    hide IsIdentifier;
    UniqueIsDistinct(request.sourceIds);
    assert forall id | id in Elems(request.sourceIds) :: id in request.sourceIds;
  }

  lemma NameIsIdentifier(k: nat)
    requires 0 < k <= COUNT
    ensures IsIdentifier(Name(k))
  {
  }

  lemma CrowdPasses(asOf: int)
    ensures var a := Request(Names(0) + ["z"], asOf, None);
            a.Valid() && Gate(Crowd(), a).None? && ActiveIds(Crowd(), a) != {}
  {
    var a := Request(Names(0) + ["z"], asOf, None);
    NamesAre(0);
    CrowdIsValid();
    assert IsIdentifier("z");
    forall id
      ensures Entry(id).serverOwned && Entry(id).Trusted() && Assess(Entry(id), a).active
    {
      EntryIsValid(id);
    }
    hide Entry;
    hide Names;
    hide Name;
    hide Crowd;
    hide Assess;
    hide IsIdentifier;
    forall k | 0 < k <= COUNT
      ensures IsIdentifier(Name(k))
    {
      NameIsIdentifier(k);
    }
    assert Crowd().serverIds == Some(a.sourceIds) by {
      CrowdIsBound();
    }
    GateOpens(Crowd(), a);
    hide Gate;
    assert "z" in a.sourceIds;
    assert "z" in ActiveIds(Crowd(), a);
  }

  lemma CrowdIsBound()
    ensures Crowd().serverIds == Some(Names(0) + ["z"])
  {
  }

  lemma FirstTwo(cat: Catalog, ids: seq<string>)
    requires |ids| >= 2 && forall id | id in ids :: id in cat.sources
    ensures |Relations(cat, ids)| >= |RelationsOf(cat.sources[ids[0]])| + |RelationsOf(cat.sources[ids[1]])|
  {
    hide RelationsOf;
    RelationsSplit(cat, ids, 2);
    assert ids[..2][..1] == [ids[0]] && [ids[0]][..0] == [];
    assert Relations(cat, [ids[0]]) == RelationsOf(cat.sources[ids[0]]);
    assert Relations(cat, ids[..2]) == Relations(cat, [ids[0]]) + RelationsOf(cat.sources[ids[1]]);
    hide Relations;
  }

  lemma CrowdHasManyRelations()
    ensures |Relations(Crowd(), Names(0))| > MAX_FINDINGS
  {
    var cat, ids := Crowd(), Names(0);
    NamesAre(0);
    NamesAre(1);
    NamesAre(2);
    assert ids[0] == Name(1) && ids[1] == Name(2);
    assert |Name(1)| == 1 && |Name(2)| == 2;
    CrowdIsValid();
    hide Names;
    hide Name;
    hide Crowd;
    FirstTwo(cat, ids);
    RelationsOfMeans(Entry(Name(1)));
    RelationsOfMeans(Entry(Name(2)));
    hide Relations;
    hide RelationsOf;
  }

  lemma ZIsStray()
    ensures Entry("z").specializes == [] && Entry("z").superior == ["w"]
  {
    assert Name(1)[0] == 'x' && Name(2)[0] == 'x';
  }

  /** The same request in two orders: one is refused a record, the other is answered. */
  lemma OrderCanMatter(asOf: int)
    ensures Crowd().Valid() && SameRequest(Request(Names(0) + ["z"], asOf, None), Request(["z"] + Names(0), asOf, None))
    ensures Resolve(Crowd(), Request(Names(0) + ["z"], asOf, None)).Rejected?
    ensures Resolve(Crowd(), Request(["z"] + Names(0), asOf, None)).Returned?
  {
    hide Entry;
    hide Names;
    hide Name;
    hide Relations;
    hide Gate;
    hide ActiveIds;
    hide Resolve;
    hide Targets;
    hide Crowd;
    hide Distinct;
    CrowdIsValid();
    CrowdPasses(asOf);
    CrowdHasManyRelations();
    ZIsStray();
    NamesAre(0);
    SameElements(Names(0), "z");
    StrayLastOrFirst(Crowd(), Names(0), "z", asOf, None);
    FrontDistinct(Names(0), "z");
  }

  lemma FrontDistinct(ids: seq<string>, x: string)
    requires Distinct(ids + [x])
    ensures Distinct([x] + ids)
  {
    var all := ids + [x];
    forall i | 0 <= i < |ids|
      ensures ids[i] != x
    {
      assert all[i] != all[|ids|];
    }
    forall i, j | 0 <= i < j < |ids|
      ensures ids[i] != ids[j]
    {
      assert all[i] != all[j];
    }
  }
}
