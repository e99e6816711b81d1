/** Exact-text offset proposals for citations, and the ranges a claim occupies in a draft. */
module Citations {
  import opened Collections
  import opened Sorting

  const WINDOW := 16
  const MAX_RANGES := 32

  datatype Occurrence = Occurrence(evidenceId: string, text: string, start: int, end: int)

  datatype Binding = Binding(claimId: string, claimText: string, evidenceIds: seq<string>, occurrences: seq<Occurrence>)

  datatype Status = TextNotFound | AmbiguousText | OutsideWindow | Candidate | RequiresRevision | Unchanged | Proposed

  datatype Item = Item(
    claimId: string,
    index: nat,
    original: Occurrence,
    status: Status,
    proposed: Option<Occurrence>,
    reasons: seq<string>)

  // ----- Searching text -----------------------------------------------------------------

  /** The first occurrence at or after `from`, or -1. Occurrences may overlap. */
  function Find(s: string, part: string, from: nat): (p: int)
    ensures p < 0 ==> p == -1 && forall i | from <= i <= |s| :: !OccursAt(s, part, i)
    ensures p >= 0 ==> from <= p <= |s| && OccursAt(s, part, p) && forall i | from <= i < p :: !OccursAt(s, part, i)
    decreases |s| + 1 - from
  {
    if from > |s| then -1
    else if OccursAt(s, part, from) then from
    else Find(s, part, from + 1)
  }

  ghost predicate OnlyAt(s: string, part: string, p: int) {
    OccursAt(s, part, p) && forall i | 0 <= i <= |s| && OccursAt(s, part, i) :: i == p
  }

  // ----- Placing one citation -----------------------------------------------------------

  function Distance(a: int, b: int): nat {
    if a < b then b - a else a - b
  }

  function Moved(o: Occurrence, start: int): Occurrence {
    o.(start := start, end := start + |o.text|)
  }

  predicate Near(o: Occurrence, start: int) {
    Distance(start, o.start) <= WINDOW && Distance(start + |o.text|, o.end) <= WINDOW
  }

  function Place(answer: string, o: Occurrence): Status {
    var start := Find(answer, o.text, 0);
    if start < 0 then TextNotFound
    else if Find(answer, o.text, start + 1) >= 0 then AmbiguousText
    else if !Near(o, start) then OutsideWindow
    else Candidate
  }

  function Correct(answer: string, o: Occurrence): Occurrence {
    if Place(answer, o).Candidate? then Moved(o, Find(answer, o.text, 0)) else o
  }

  /** Both ends of the citation text, if it starts there, are at most 16 places from where they were. */
  ghost predicate Close(o: Occurrence, start: int) {
    o.start - 16 <= start <= o.start + 16 && o.end - 16 <= start + |o.text| <= o.end + 16
  }

  lemma NearIsClose(o: Occurrence, start: int)
    ensures Near(o, start) <==> Close(o, start)
  {
  }

  /** Each status says exactly how often, and how near, the citation text occurs. */
  lemma PlaceMeans(answer: string, o: Occurrence)
    ensures Place(answer, o).TextNotFound? <==> !Contains(answer, o.text)
    ensures Place(answer, o).AmbiguousText? <==>
              exists i, j :: 0 <= i < j <= |answer| && OccursAt(answer, o.text, i) && OccursAt(answer, o.text, j)
    ensures Place(answer, o).Candidate? <==> exists p :: OnlyAt(answer, o.text, p) && Close(o, p)
    ensures Place(answer, o).OutsideWindow? <==> exists p :: OnlyAt(answer, o.text, p) && !Close(o, p)
  {
    NearIsClose(o, Find(answer, o.text, 0));
    hide Near;
    hide Close;
    var start := Find(answer, o.text, 0);
    forall p | OnlyAt(answer, o.text, p)
      ensures p == start && Find(answer, o.text, start + 1) < 0
    {
    }
    hide OccursAt;
    if start >= 0 {
      var next := Find(answer, o.text, start + 1);
      if next >= 0 {
        assert start < next && OccursAt(answer, o.text, next);
      } else {
        assert OnlyAt(answer, o.text, start);
      }
    }
    hide Find;
  }

  /** A corrected citation selects exactly its text, at the only place where it occurs, with both
      ends close to where they were. */
  lemma CorrectSelects(answer: string, o: Occurrence)
    requires Place(answer, o).Candidate?
    ensures var c := Correct(answer, o);
            && OnlyAt(answer, o.text, c.start) && 0 <= c.start <= c.end <= |answer| && answer[c.start..c.end] == o.text
            && Distance(c.start, o.start) <= WINDOW && Distance(c.end, o.end) <= WINDOW
  {
    hide Find;
  }

  /** Correcting is idempotent: a corrected citation stays where it is, others keep their status. */
  lemma CorrectTwice(answer: string, o: Occurrence)
    ensures Place(answer, Correct(answer, o)) == Place(answer, o)
    ensures Correct(answer, Correct(answer, o)) == Correct(answer, o)
  {
    hide Find;
  }

  // ----- All bindings -------------------------------------------------------------------

  /** The occurrences of all bindings in order. */
  function Spans(bindings: seq<Binding>): seq<Occurrence> {
    if bindings == [] then [] else Spans(bindings[..|bindings| - 1]) + bindings[|bindings| - 1].occurrences
  }

  function CorrectedBinding(answer: string, b: Binding): Binding {
    b.(occurrences := seq(|b.occurrences|, k requires 0 <= k < |b.occurrences| => Correct(answer, b.occurrences[k])))
  }

  function Corrected(answer: string, bindings: seq<Binding>): seq<Binding> {
    seq(|bindings|, i requires 0 <= i < |bindings| => CorrectedBinding(answer, bindings[i]))
  }

  function Staged(answer: string, claimId: string, index: nat, o: Occurrence): Item {
    Item(claimId, index, o, Place(answer, o), None, [])
  }

  function StagedOf(answer: string, b: Binding): seq<Item> {
    seq(|b.occurrences|, k requires 0 <= k < |b.occurrences| => Staged(answer, b.claimId, k, b.occurrences[k]))
  }

  function StagedAll(answer: string, bindings: seq<Binding>): seq<Item> {
    if bindings == [] then []
    else StagedAll(answer, bindings[..|bindings| - 1]) + StagedOf(answer, bindings[|bindings| - 1])
  }

  /** The strict relationship check of the whole draft, and the eligibility of a cited span. */
  datatype Checks = Checks(relations: (string, seq<Binding>) -> seq<string>, eligible: string -> bool)

  function Ineligible(checks: Checks, spans: seq<Occurrence>): seq<string> {
    if spans == [] then []
    else
      Ineligible(checks, spans[..|spans| - 1])
      + if checks.eligible(spans[|spans| - 1].evidenceId) then [] else ["CITATION_SOURCE_NOT_ELIGIBLE"]
  }

  function Reasons(checks: Checks, answer: string, bindings: seq<Binding>): seq<string> {
    var candidates := Corrected(answer, bindings);
    checks.relations(answer, candidates) + Ineligible(checks, Spans(candidates))
  }

  function Finish(item: Item, corrected: Occurrence, reasons: seq<string>): Item {
    if !item.status.Candidate? then item
    else if reasons != [] then item.(status := RequiresRevision, reasons := Sort(Dedupe(reasons)))
    else item.(status := if corrected == item.original then Unchanged else Proposed, proposed := Some(corrected))
  }

  /** How a staged item and the corrected occurrence belong to the original one. */
  predicate StagedOne(answer: string, item: Item, o: Occurrence, corrected: Occurrence) {
    && item.original == o && item.status == Place(answer, o) && item.proposed == None && item.reasons == []
    && corrected == Correct(answer, o)
  }

  lemma StagedBinding(answer: string, b: Binding)
    ensures |StagedOf(answer, b)| == |b.occurrences| == |CorrectedBinding(answer, b).occurrences|
    ensures forall i | 0 <= i < |b.occurrences| ::
              StagedOne(answer, StagedOf(answer, b)[i], b.occurrences[i], CorrectedBinding(answer, b).occurrences[i])
  {
    hide Place;
    hide Correct;
  }

  lemma {:induction false} StagedAre(answer: string, bindings: seq<Binding>)
    ensures |StagedAll(answer, bindings)| == |Spans(bindings)| == |Spans(Corrected(answer, bindings))|
    ensures forall i | 0 <= i < |Spans(bindings)| ::
              StagedOne(answer, StagedAll(answer, bindings)[i], Spans(bindings)[i], Spans(Corrected(answer, bindings))[i])
  {
    hide StagedOne;
    hide StagedOf;
    hide CorrectedBinding;
    if bindings != [] {
      var rest, last := bindings[..|bindings| - 1], bindings[|bindings| - 1];
      StagedAre(answer, rest);
      StagedBinding(answer, last);
      assert Corrected(answer, bindings)[..|rest|] == Corrected(answer, rest);
      assert Spans(Corrected(answer, bindings)) == Spans(Corrected(answer, rest)) + CorrectedBinding(answer, last).occurrences;
    }
  }

  ghost function Prepared(checks: Checks, answer: string, bindings: seq<Binding>): (items: seq<Item>)
    ensures |items| == |Spans(bindings)| == |StagedAll(answer, bindings)|
    ensures forall i | 0 <= i < |items| ::
              items[i] == Finish(StagedAll(answer, bindings)[i], Correct(answer, Spans(bindings)[i]), Reasons(checks, answer, bindings))
  {
    StagedAre(answer, bindings);
    var staged, spans, reasons := StagedAll(answer, bindings), Spans(bindings), Reasons(checks, answer, bindings);
    seq(|staged|, i requires 0 <= i < |staged| => Finish(staged[i], Correct(answer, spans[i]), reasons))
  }

  method StageBinding(answer: string, b: Binding) returns (proposals: seq<Item>, occurrences: seq<Occurrence>)
    ensures proposals == StagedOf(answer, b) && occurrences == CorrectedBinding(answer, b).occurrences
  {
    hide Find;
    proposals, occurrences := [], [];
    for k := 0 to |b.occurrences|
      invariant |proposals| == |occurrences| == k
      invariant forall j | 0 <= j < k ::
                  proposals[j] == Staged(answer, b.claimId, j, b.occurrences[j]) && occurrences[j] == Correct(answer, b.occurrences[j])
    {
      var o := b.occurrences[k];
      var corrected := o;
      var status;
      var start := Find(answer, o.text, 0);
      if start < 0 {
        status := TextNotFound;
      } else {
        var next := Find(answer, o.text, start + 1);
        if next >= 0 {
          status := AmbiguousText;
        } else if Distance(start, o.start) > WINDOW || Distance(start + |o.text|, o.end) > WINDOW {
          status := OutsideWindow;
        } else {
          corrected := o.(start := start, end := start + |o.text|);
          status := Candidate;
        }
      }
      occurrences := occurrences + [corrected];
      proposals := proposals + [Item(b.claimId, k, o, status, None, [])];
    }
  }

  /** Every correction is staged before the relations are checked, so that one bad offset does not
      spoil another citation; the proposals are then settled in place. */
  method PrepareCitations(checks: Checks, answer: string, bindings: seq<Binding>) returns (proposals: seq<Item>)
    ensures proposals == Prepared(checks, answer, bindings)
  {
    hide Correct;
    hide CorrectedBinding;
    hide StagedOf;
    proposals := [];
    var candidates: seq<Binding> := [];
    for i := 0 to |bindings|
      invariant proposals == StagedAll(answer, bindings[..i]) && candidates == Corrected(answer, bindings[..i])
    {
      assert bindings[..i + 1][..i] == bindings[..i];
      var items, occurrences := StageBinding(answer, bindings[i]);
      assert bindings[i].(occurrences := occurrences) == CorrectedBinding(answer, bindings[i]) by {
        CorrectedKeeps(answer, bindings[i]);
      }
      proposals := proposals + items;
      candidates := candidates + [bindings[i].(occurrences := occurrences)];
    }
    assert bindings[..|bindings|] == bindings;
    var spans := Spans(candidates);
    var reasons := checks.relations(answer, candidates) + Ineligible(checks, spans);
    StagedAre(answer, bindings);
    ghost var staged := proposals;
    hide Finish;
    hide StagedAll;
    hide Spans;
    hide Corrected;
    for i := 0 to |proposals|
      invariant |proposals| == |staged| == |spans|
      invariant forall j | 0 <= j < i :: proposals[j] == Finish(staged[j], spans[j], reasons)
      invariant forall j | i <= j < |staged| :: proposals[j] == staged[j]
    {
      proposals := proposals[i := Finish(proposals[i], spans[i], reasons)];
    }
  }

  lemma CorrectedKeeps(answer: string, b: Binding)
    ensures b.(occurrences := CorrectedBinding(answer, b).occurrences) == CorrectedBinding(answer, b)
  {
  }

  // ----- What the proposals mean --------------------------------------------------------

  /** What settling a staged citation can lead to. */
  ghost predicate Exact(answer: string, o: Occurrence, item: Item) {
    && item.original == o
    && (item.proposed.Some? <==> item.status.Proposed? || item.status.Unchanged?)
    && (item.proposed.Some? ==>
          var p := item.proposed.value;
          && p.evidenceId == o.evidenceId && p.text == o.text
          && 0 <= p.start <= p.end <= |answer| && answer[p.start..p.end] == p.text
          && (forall before, after | answer == before + p.text + after :: |before| == p.start)
          && o.start - 16 <= p.start <= o.start + 16 && o.end - 16 <= p.end <= o.end + 16
          && (item.status.Unchanged? <==> p == o))
  }

  lemma FinishIsExact(answer: string, o: Occurrence, item: Item, reasons: seq<string>)
    requires item.original == o && item.status == Place(answer, o) && item.proposed == None
    ensures Exact(answer, o, Finish(item, Correct(answer, o), reasons))
    ensures Place(answer, o).Candidate? ==>
              (Finish(item, Correct(answer, o), reasons).status.RequiresRevision? <==> reasons != [])
    ensures !Place(answer, o).Candidate? ==> Finish(item, Correct(answer, o), reasons).status == Place(answer, o)
  {
    if Place(answer, o).Candidate? {
      CorrectSelects(answer, o);
      CorrectOnly(answer, o);
    }
    hide Find;
    hide OccursAt;
    hide Near;
    hide OnlyAt;
    hide Sort;
    hide Dedupe;
  }

  lemma CorrectOnly(answer: string, o: Occurrence)
    requires Place(answer, o).Candidate?
    ensures forall before, after | answer == before + o.text + after :: |before| == Correct(answer, o).start
  {
    CorrectSelects(answer, o);
    hide Place;
    hide Correct;
    forall before, after | answer == before + o.text + after
      ensures |before| == Correct(answer, o).start
    {
      assert OccursAt(answer, o.text, |before|);
    }
  }

  /** A proposed or unchanged offset selects the citation text at its only occurrence, close to the
      original; it is unchanged exactly when it is the original. Every other item keeps the status
      of its placement, unless the draft as a whole has to be revised. */
  lemma ProposalsAreExact(checks: Checks, answer: string, bindings: seq<Binding>, i: nat)
    requires i < |Prepared(checks, answer, bindings)|
    ensures var item, o, reasons := Prepared(checks, answer, bindings)[i], Spans(bindings)[i], Reasons(checks, answer, bindings);
            && Exact(answer, o, item)
            && (Place(answer, o).Candidate? ==> (item.status.RequiresRevision? <==> reasons != []))
            && (!Place(answer, o).Candidate? ==> item.status == Place(answer, o))
  {
    hide Place;
    hide Correct;
    hide Exact;
    hide Finish;
    hide StagedAll;
    hide Spans;
    hide Corrected;
    hide Reasons;
    StagedAre(answer, bindings);
    FinishIsExact(answer, Spans(bindings)[i], StagedAll(answer, bindings)[i], Reasons(checks, answer, bindings));
  }

  lemma {:induction false} SpansAre(bindings: seq<Binding>)
    ensures forall o :: o in Spans(bindings) <==> exists b :: b in bindings && o in b.occurrences
  {
    if bindings != [] {
      SpansAre(bindings[..|bindings| - 1]);
      assert bindings == bindings[..|bindings| - 1] + [bindings[|bindings| - 1]];
    }
  }

  lemma {:induction false} IneligibleAre(checks: Checks, spans: seq<Occurrence>)
    ensures Ineligible(checks, spans) == [] <==> forall o | o in spans :: checks.eligible(o.evidenceId)
    ensures forall r | r in Ineligible(checks, spans) :: r == "CITATION_SOURCE_NOT_ELIGIBLE"
  {
    if spans != [] {
      IneligibleAre(checks, spans[..|spans| - 1]);
      assert spans == spans[..|spans| - 1] + [spans[|spans| - 1]];
    }
  }

  lemma SpansEligible(checks: Checks, answer: string, bindings: seq<Binding>)
    ensures (forall o | o in Spans(Corrected(answer, bindings)) :: checks.eligible(o.evidenceId)) <==>
              forall b, o | b in bindings && o in b.occurrences :: checks.eligible(o.evidenceId)
  {
    var spans := Spans(Corrected(answer, bindings));
    SpansAre(bindings);
    StagedAre(answer, bindings);
    hide Spans;
    hide Corrected;
    hide StagedAll;
    hide Place;
    assert forall i | 0 <= i < |spans| :: spans[i].evidenceId == Spans(bindings)[i].evidenceId;
    if o :| o in Spans(bindings) && !checks.eligible(o.evidenceId) {
      var i :| 0 <= i < |spans| && Spans(bindings)[i] == o;
      assert spans[i] in spans;
    }
    forall o | o in spans && !checks.eligible(o.evidenceId)
      ensures exists x | x in Spans(bindings) :: !checks.eligible(x.evidenceId)
    {
      var i :| 0 <= i < |spans| && spans[i] == o;
      assert Spans(bindings)[i] in Spans(bindings);
    }
    hide Correct;
  }

  /** The draft has to be revised exactly when its relations do not hold or some cited span, in any
      binding, is not eligible; and the reasons are those of the relations, and one code for the spans. */
  lemma DraftReasons(checks: Checks, answer: string, bindings: seq<Binding>)
    ensures var relations := checks.relations(answer, Corrected(answer, bindings));
            var eligible := forall b, o | b in bindings && o in b.occurrences :: checks.eligible(o.evidenceId);
            && (Reasons(checks, answer, bindings) == [] <==> relations == [] && eligible)
            && Elems(Reasons(checks, answer, bindings)) == Elems(relations) + if eligible then {} else {"CITATION_SOURCE_NOT_ELIGIBLE"}
  {
    var candidates := Corrected(answer, bindings);
    var found := Ineligible(checks, Spans(candidates));
    SpansEligible(checks, answer, bindings);
    IneligibleAre(checks, Spans(candidates));
    ElemsConcat(checks.relations(answer, candidates), found);
    if found != [] {
      assert found[0] in Elems(found);
    }
    hide Ineligible;
    hide Spans;
    hide Corrected;
  }

  /** An item to be revised names the reasons of the draft, sorted and each once, and no other item names
      any. */
  lemma RevisionsNameReasons(checks: Checks, answer: string, bindings: seq<Binding>, i: nat)
    requires i < |Prepared(checks, answer, bindings)|
    ensures var item := Prepared(checks, answer, bindings)[i];
            if item.status.RequiresRevision? then
              && Elems(item.reasons) == Elems(Reasons(checks, answer, bindings)) && Ascending(item.reasons) && Distinct(item.reasons)
            else item.reasons == []
  {
    var reasons := Reasons(checks, answer, bindings);
    StagedAre(answer, bindings);
    DedupeKeeps(reasons);
    SortSorts(Dedupe(reasons));
    SortKeepsDistinct(Dedupe(reasons));
    UncorrectedStays(answer, Spans(bindings)[i]);
    PlaceNeverRevises(answer, Spans(bindings)[i]);
    hide Place;
    hide Correct;
    hide Sort;
    hide Dedupe;
    hide Distinct;
    hide Ascending;
    hide StagedAll;
    hide Spans;
    hide Reasons;
  }

  lemma PlaceNeverRevises(answer: string, o: Occurrence)
    ensures !Place(answer, o).RequiresRevision? && !Place(answer, o).Unchanged?
  {
  }

  /** The bindings with every proposal applied, and nothing else changed. */
  ghost predicate Applies(bindings: seq<Binding>, items: seq<Item>, revised: seq<Binding>)
    requires |items| == |Spans(bindings)|
  {
    && SameShape(bindings, revised)
    && |Spans(revised)| == |Spans(bindings)|
    && forall i | 0 <= i < |items| ::
         Spans(revised)[i] == if items[i].status.Proposed? && items[i].proposed.Some? then items[i].proposed.value else Spans(bindings)[i]
  }

  ghost predicate SameShape(a: seq<Binding>, b: seq<Binding>) {
    && |a| == |b|
    && forall i | 0 <= i < |a| :: |a[i].occurrences| == |b[i].occurrences| && a[i].(occurrences := b[i].occurrences) == b[i]
  }

  /** Bindings of one shape are told apart by their occurrences. */
  lemma {:induction false} ShapeAndSpans(a: seq<Binding>, b: seq<Binding>)
    requires SameShape(a, b) && Spans(a) == Spans(b)
    ensures a == b
  {
    if a != [] {
      var n := |a| - 1;
      var before := Spans(a[..n]);
      assert Spans(a) == Spans(a[..n]) + a[n].occurrences;
      assert Spans(b) == Spans(b[..n]) + b[n].occurrences;
      assert |Spans(a[..n])| == |Spans(b[..n])|;
      assert Spans(a[..n]) == Spans(a)[..|before|] == Spans(b)[..|before|] == Spans(b[..n]);
      assert a[n].occurrences == Spans(a)[|before|..] == Spans(b)[|before|..] == b[n].occurrences;
      ShapeAndSpans(a[..n], b[..n]);
      assert a[n] == b[n];
      assert a == a[..n] + [a[n]] && b == b[..n] + [b[n]];
    }
  }

  lemma CorrectedHasShape(answer: string, bindings: seq<Binding>)
    ensures SameShape(bindings, Corrected(answer, bindings))
  {
    hide Correct;
  }

  lemma SameShapeTransitive(a: seq<Binding>, b: seq<Binding>, c: seq<Binding>)
    requires SameShape(a, b) && SameShape(a, c)
    ensures SameShape(b, c)
  {
  }

  lemma CorrectedTwice(answer: string, bindings: seq<Binding>)
    ensures Corrected(answer, Corrected(answer, bindings)) == Corrected(answer, bindings)
  {
    var once := Corrected(answer, bindings);
    forall i | 0 <= i < |bindings|
      ensures CorrectedBinding(answer, once[i]) == once[i]
    {
      forall k | 0 <= k < |bindings[i].occurrences|
        ensures Correct(answer, once[i].occurrences[k]) == once[i].occurrences[k]
      {
        CorrectTwice(answer, bindings[i].occurrences[k]);
      }
      hide Correct;
      assert CorrectedBinding(answer, once[i]).occurrences == once[i].occurrences;
    }
    hide CorrectedBinding;
  }

  /** What applying the proposals yields: the staged corrections, or the bindings as they were when
      the draft has to be revised first. */
  lemma AppliedIs(checks: Checks, answer: string, bindings: seq<Binding>, revised: seq<Binding>)
    requires Applies(bindings, Prepared(checks, answer, bindings), revised)
    ensures revised == if Reasons(checks, answer, bindings) == [] then Corrected(answer, bindings) else bindings
  {
    hide SameShape;
    hide StagedAll;
    hide Spans;
    hide Corrected;
    hide Reasons;
    hide Place;
    hide Correct;
    hide Finish;
    var items := Prepared(checks, answer, bindings);
    var target := if Reasons(checks, answer, bindings) == [] then Corrected(answer, bindings) else bindings;
    StagedAre(answer, bindings);
    CorrectedHasShape(answer, bindings);
    SameShapeReflexive(bindings);
    SameShapeTransitive(bindings, revised, target);
    forall i | 0 <= i < |items|
      ensures Spans(revised)[i] == Spans(target)[i]
    {
      AppliedOne(answer, Spans(bindings)[i], StagedAll(answer, bindings)[i], Reasons(checks, answer, bindings));
    }
    assert Spans(revised) == Spans(target);
    ShapeAndSpans(revised, target);
  }

  lemma SameShapeReflexive(bindings: seq<Binding>)
    ensures SameShape(bindings, bindings)
  {
  }

  lemma AppliedOne(answer: string, o: Occurrence, first: Item, reasons: seq<string>)
    requires first.original == o && first.status == Place(answer, o) && first.proposed == None
    ensures var item := Finish(first, Correct(answer, o), reasons);
            (if item.status.Proposed? && item.proposed.Some? then item.proposed.value else o) == if reasons == [] then Correct(answer, o) else o
  {
    hide Place;
    hide Correct;
    hide Sort;
    hide Dedupe;
    UncorrectedStays(answer, o);
  }

  /** Preparing again after applying all proposals changes nothing: what was proposed or unchanged
      is unchanged at the same offsets, and every unresolved item keeps its status. */
  lemma PreparationIsIdempotent(checks: Checks, answer: string, bindings: seq<Binding>, revised: seq<Binding>)
    requires Applies(bindings, Prepared(checks, answer, bindings), revised)
    ensures var items, again := Prepared(checks, answer, bindings), Prepared(checks, answer, revised);
            && |again| == |items|
            && forall i | 0 <= i < |items| ::
                 && again[i].proposed == items[i].proposed
                 && again[i].status == if items[i].status.Proposed? then Unchanged else items[i].status
  {
    hide Place;
    hide Correct;
    hide Finish;
    hide Applies;
    hide StagedAll;
    hide Spans;
    hide Corrected;
    hide Reasons;
    AppliedIs(checks, answer, bindings, revised);
    StagedAre(answer, bindings);
    StagedAre(answer, revised);
    CorrectedTwice(answer, bindings);
    var items, again := Prepared(checks, answer, bindings), Prepared(checks, answer, revised);
    var reasons := Reasons(checks, answer, bindings);
    SameReasons(checks, answer, bindings, revised);
    forall i | 0 <= i < |items|
      ensures again[i].proposed == items[i].proposed
      ensures again[i].status == if items[i].status.Proposed? then Unchanged else items[i].status
    {
      FinishTwice(answer, Spans(bindings)[i], StagedAll(answer, bindings)[i], StagedAll(answer, revised)[i], reasons);
    }
  }

  lemma SameReasons(checks: Checks, answer: string, bindings: seq<Binding>, revised: seq<Binding>)
    requires revised == bindings || revised == Corrected(answer, bindings)
    ensures Reasons(checks, answer, revised) == Reasons(checks, answer, bindings)
  {
    CorrectedTwice(answer, bindings);
    hide Corrected;
  }

  /** Settling the same citation again, after its settled form has been applied. */
  lemma FinishTwice(answer: string, o: Occurrence, first: Item, second: Item, reasons: seq<string>)
    requires first.original == o && first.status == Place(answer, o) && first.proposed == None && first.reasons == []
    requires second.original == (if reasons == [] then Correct(answer, o) else o)
    requires second.status == Place(answer, second.original) && second.proposed == None && second.reasons == []
    ensures var item, again := Finish(first, Correct(answer, o), reasons), Finish(second, Correct(answer, second.original), reasons);
            && again.proposed == item.proposed
            && again.status == if item.status.Proposed? then Unchanged else item.status
  {
    hide Place;
    hide Sort;
    hide Dedupe;
    hide Correct;
    CorrectTwice(answer, o);
    UncorrectedStays(answer, o);
  }

  lemma UncorrectedStays(answer: string, o: Occurrence)
    ensures !Place(answer, o).Candidate? ==> Correct(answer, o) == o
    ensures !Place(answer, o).Proposed?
  {
  }

  // ----- The ranges of a claim ----------------------------------------------------------

  /** All occurrences from a position on, overlapping ones included, in ascending order. */
  function Matches(text: string, claim: string, from: nat): seq<int>
    decreases |text| + 1 - from
  {
    if from > |text| then []
    else if OccursAt(text, claim, from) then [from] + Matches(text, claim, from + 1)
    else Matches(text, claim, from + 1)
  }

  lemma OccursWithin(text: string, claim: string)
    ensures forall i | OccursAt(text, claim, i) :: 0 <= i <= |text|
  {
  }

  lemma MatchesStep(text: string, claim: string, from: nat)
    requires from <= |text|
    ensures Matches(text, claim, from) ==
              if OccursAt(text, claim, from) then [from] + Matches(text, claim, from + 1) else Matches(text, claim, from + 1)
  {
  }

  lemma {:induction false} MatchesAreAll(text: string, claim: string, from: nat)
    ensures forall i :: i in Matches(text, claim, from) <==> from <= i && OccursAt(text, claim, i)
    ensures forall i, j | 0 <= i < j < |Matches(text, claim, from)| :: Matches(text, claim, from)[i] < Matches(text, claim, from)[j]
    decreases |text| + 1 - from
  {
    OccursWithin(text, claim);
    hide OccursAt;
    if from <= |text| {
      MatchesStep(text, claim, from);
      MatchesAreAll(text, claim, from + 1);
      var rest := Matches(text, claim, from + 1);
      hide Matches;
      assert forall k | 0 <= k < |rest| :: rest[k] in rest;
    } else {
      assert Matches(text, claim, from) == [];
      hide Matches;
    }
    hide Matches;
  }

  /** Searching from a position finds the first of the remaining occurrences. */
  lemma {:induction false} FindIsFirst(text: string, claim: string, from: nat)
    ensures Find(text, claim, from) < 0 <==> Matches(text, claim, from) == []
    ensures var p := Find(text, claim, from);
            p >= 0 ==> Matches(text, claim, from) == [p] + Matches(text, claim, p + 1)
    decreases |text| + 1 - from
  {
    hide OccursAt;
    if from <= |text| {
      MatchesStep(text, claim, from);
      hide Matches;
      if !OccursAt(text, claim, from) {
        FindIsFirst(text, claim, from + 1);
      }
    }
  }

  /** Exactly the first occurrences, overlapping ones included; truncated exactly when more exist. */
  method TextRanges(text: string, claim: string) returns (ranges: seq<(int, int)>, truncated: bool)
    ensures var all := Matches(text, claim, 0);
            && |ranges| == (if |all| < 32 then |all| else 32)
            && (forall i | 0 <= i < |ranges| :: ranges[i] == (all[i], all[i] + |claim|))
            && (truncated <==> |all| > 32)
  {
    hide Find;
    hide Matches;
    ghost var all := Matches(text, claim, 0);
    FindIsFirst(text, claim, 0);
    ranges := [];
    var position := Find(text, claim, 0);
    ghost var left := all;
    while position >= 0 && |ranges| < MAX_RANGES
      invariant |ranges| <= MAX_RANGES && |ranges| + |left| == |all| && left == all[|ranges|..]
      invariant forall i | 0 <= i < |ranges| :: ranges[i] == (all[i], all[i] + |claim|)
      invariant position < 0 <==> left == []
      invariant position >= 0 ==> left == [position] + Matches(text, claim, position + 1)
      decreases MAX_RANGES - |ranges|
    {
      assert all[|ranges|] == left[0] == position;
      ranges := ranges + [(position, position + |claim|)];
      left := left[1..];
      FindIsFirst(text, claim, position + 1);
      position := Find(text, claim, position + 1);
    }
    truncated := position >= 0;
  }
}
