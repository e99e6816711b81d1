/** Ranking judgment identities and merging the ones that denote the same decision. */
module Identity {
  import opened Collections

  datatype CandidateRef = CandidateRef(providerId: string, candidateId: string)

  datatype JudgmentIdentity = JudgmentIdentity(
    lookup: string,
    jid: Option<string>,
    resolution: string,
    candidate: Option<CandidateRef>,
    merged: seq<string>)

  function Key(item: JudgmentIdentity): string {
    if item.jid.Some? && item.jid.value != "" then "jid:" + item.jid.value
    else if item.candidate.Some? then "candidate:" + item.candidate.value.providerId + ":" + item.candidate.value.candidateId
    else "direct:" + item.lookup
  }

  function Keys(items: seq<JudgmentIdentity>): seq<string> {
    seq(|items|, i requires 0 <= i < |items| => Key(items[i]))
  }

  ghost predicate HasJid(item: JudgmentIdentity) {
    item.jid.Some? && item.jid.value != []
  }

  ghost function CandidateName(c: CandidateRef): string {
    c.providerId + ":" + c.candidateId
  }

  lemma Headed(prefix: string, a: string, b: string)
    ensures prefix + a == prefix + b <==> a == b
  {
    if prefix + a == prefix + b {
      assert (prefix + a)[|prefix|..] == a && (prefix + b)[|prefix|..] == b;
    }
  }

  lemma KeyHeads(item: JudgmentIdentity)
    ensures Key(item) != [] && Key(item)[0] == if HasJid(item) then 'j' else if item.candidate.Some? then 'c' else 'd'
    ensures HasJid(item) ==> Key(item) == "jid:" + item.jid.value
    ensures !HasJid(item) && item.candidate.Some? ==> Key(item) == "candidate:" + CandidateName(item.candidate.value)
    ensures !HasJid(item) && item.candidate.None? ==> Key(item) == "direct:" + item.lookup
  {
    if item.candidate.Some? {
      var c := item.candidate.value;
      assert "candidate:" + c.providerId + ":" + c.candidateId == "candidate:" + (c.providerId + ":" + c.candidateId);
    }
  }

  /** Two identities are merged exactly when both have one judgment id, or neither has an id and they
      are the same candidate by name, or neither has either and they were looked up by the same text. */
  lemma SameKey(a: JudgmentIdentity, b: JudgmentIdentity)
    ensures Key(a) == Key(b) <==>
              if HasJid(a) || HasJid(b) then HasJid(a) && HasJid(b) && a.jid == b.jid
              else if a.candidate.Some? || b.candidate.Some? then
                a.candidate.Some? && b.candidate.Some? && CandidateName(a.candidate.value) == CandidateName(b.candidate.value)
              else a.lookup == b.lookup
  {
    KeyHeads(a);
    KeyHeads(b);
    hide Key;
    if HasJid(a) && HasJid(b) {
      Headed("jid:", a.jid.value, b.jid.value);
    } else if !HasJid(a) && !HasJid(b) {
      if a.candidate.Some? && b.candidate.Some? {
        Headed("candidate:", CandidateName(a.candidate.value), CandidateName(b.candidate.value));
      } else if a.candidate.None? && b.candidate.None? {
        Headed("direct:", a.lookup, b.lookup);
      }
    }
  }

  /** Candidates of different providers can be merged, when a provider id holds the separator. */
  lemma ProvidersCanCollide()
    ensures var a := JudgmentIdentity("x", None, "", Some(CandidateRef("p:q", "r")), []);
            var b := JudgmentIdentity("y", None, "", Some(CandidateRef("p", "q:r")), []);
            Key(a) == Key(b) && a.candidate != b.candidate
  {
    var a := JudgmentIdentity("x", None, "", Some(CandidateRef("p:q", "r")), []);
    var b := JudgmentIdentity("y", None, "", Some(CandidateRef("p", "q:r")), []);
    SameKey(a, b);
    assert CandidateName(a.candidate.value) == "p:q:r" == CandidateName(b.candidate.value);
    assert "p:q"[1] == ':';
    assert |"p:q"| != |"p"|;
  }

  /** But never while no provider id holds it. */
  lemma PlainProvidersApart(a: CandidateRef, b: CandidateRef)
    requires ':' !in a.providerId && ':' !in b.providerId
    ensures CandidateName(a) == CandidateName(b) <==> a == b
  {
    if CandidateName(a) == CandidateName(b) {
      SeparatorIsFirst(a);
      SeparatorIsFirst(b);
      var m, n := |a.providerId|, |b.providerId|;
      assert m == n;
      assert CandidateName(a)[..m] == a.providerId && CandidateName(b)[..n] == b.providerId;
      assert CandidateName(a)[m + 1..] == a.candidateId && CandidateName(b)[n + 1..] == b.candidateId;
    }
  }

  lemma SeparatorIsFirst(c: CandidateRef)
    requires ':' !in c.providerId
    ensures |c.providerId| < |CandidateName(c)| && CandidateName(c)[|c.providerId|] == ':'
    ensures forall i | 0 <= i < |c.providerId| :: CandidateName(c)[i] != ':'
  {
    assert forall i | 0 <= i < |c.providerId| :: CandidateName(c)[i] == c.providerId[i];
  }

  // ----- Ranking ------------------------------------------------------------------------

  /** A ranking: total, transitive, and with direct identities before candidates. */
  ghost predicate Ranking(leq: (JudgmentIdentity, JudgmentIdentity) -> bool) {
    && (forall a, b :: leq(a, b) || leq(b, a))
    && (forall a, b, c :: leq(a, b) && leq(b, c) ==> leq(a, c))
    && (forall a: JudgmentIdentity, b: JudgmentIdentity | a.candidate.None? && b.candidate.Some? :: !leq(b, a))
  }

  ghost predicate Ranked(leq: (JudgmentIdentity, JudgmentIdentity) -> bool, items: seq<JudgmentIdentity>) {
    forall i, j | 0 <= i < j < |items| :: leq(items[i], items[j])
  }

  /** Puts a later item behind all earlier ones of no higher rank. */
  function Insert(leq: (JudgmentIdentity, JudgmentIdentity) -> bool, items: seq<JudgmentIdentity>, x: JudgmentIdentity): seq<JudgmentIdentity> {
    if items == [] || leq(items[|items| - 1], x) then items + [x]
    else Insert(leq, items[..|items| - 1], x) + [items[|items| - 1]]
  }

  /** A stable sort. */
  function Rank(leq: (JudgmentIdentity, JudgmentIdentity) -> bool, items: seq<JudgmentIdentity>): seq<JudgmentIdentity> {
    if items == [] then [] else Insert(leq, Rank(leq, items[..|items| - 1]), items[|items| - 1])
  }

  lemma {:induction false} InsertRanks(leq: (JudgmentIdentity, JudgmentIdentity) -> bool, items: seq<JudgmentIdentity>, x: JudgmentIdentity)
    requires Ranking(leq) && Ranked(leq, items)
    ensures Ranked(leq, Insert(leq, items, x))
    ensures multiset(Insert(leq, items, x)) == multiset(items) + multiset{x}
  {
    if items != [] {
      var rest, last := items[..|items| - 1], items[|items| - 1];
      assert items == rest + [last];
      if !leq(last, x) {
        InsertRanks(leq, rest, x);
        var part := Insert(leq, rest, x);
        forall k | 0 <= k < |part|
          ensures leq(part[k], last)
        {
          assert part[k] in multiset(part);
          assert part[k] == x || part[k] in rest;
        }
      }
    }
  }

  lemma {:induction false} RankRanks(leq: (JudgmentIdentity, JudgmentIdentity) -> bool, items: seq<JudgmentIdentity>)
    requires Ranking(leq)
    ensures Ranked(leq, Rank(leq, items)) && multiset(Rank(leq, items)) == multiset(items)
  {
    if items != [] {
      var rest, last := items[..|items| - 1], items[|items| - 1];
      assert items == rest + [last];
      RankRanks(leq, rest);
      InsertRanks(leq, Rank(leq, rest), last);
      hide Ranking;
      hide Ranked;
    }
  }

  lemma RankKeepsMembers(leq: (JudgmentIdentity, JudgmentIdentity) -> bool, items: seq<JudgmentIdentity>)
    requires Ranking(leq)
    ensures forall x :: x in Rank(leq, items) <==> x in items
  {
    RankRanks(leq, items);
    hide Rank;
    forall x
      ensures x in Rank(leq, items) <==> x in items
    {
      assert x in Rank(leq, items) <==> x in multiset(Rank(leq, items));
    }
  }

  // ----- Merging ------------------------------------------------------------------------

  /** A direct identity takes over the first candidate of its key. */
  function Absorb(held: JudgmentIdentity, item: JudgmentIdentity): JudgmentIdentity {
    if held.candidate.None? && item.candidate.Some? then
      JudgmentIdentity(held.lookup, held.jid, item.resolution, item.candidate, [])
    else held
  }

  /** What is held for a key after the items so far. */
  function Held(items: seq<JudgmentIdentity>, key: string): Option<JudgmentIdentity> {
    if items == [] then None
    else
      var last, before := items[|items| - 1], Held(items[..|items| - 1], key);
      if Key(last) != key then before
      else if before.None? then Some(last)
      else Some(Absorb(before.value, last))
  }

  /** All identifiers merged under a key, in order, repetitions included. */
  function MergedIds(items: seq<JudgmentIdentity>, key: string): seq<string> {
    if items == [] then []
    else
      var last := items[|items| - 1];
      MergedIds(items[..|items| - 1], key) + if Key(last) == key then last.merged else []
  }

  ghost predicate IsOutput(ranked: seq<JudgmentIdentity>, key: string, out: JudgmentIdentity) {
    && Held(ranked, key).Some?
    && out == Held(ranked, key).value.(merged := Dedupe(MergedIds(ranked, key)))
  }

  /** The dictionaries of the loop: one entry for each key seen. */
  ghost predicate Tracks(items: seq<JudgmentIdentity>, held: map<string, JudgmentIdentity>, mergedIds: map<string, seq<string>>, order: seq<string>) {
    && order == Dedupe(Keys(items)) && held.Keys == mergedIds.Keys == Elems(Keys(items))
    && forall k | k in held :: Held(items, k) == Some(held[k]) && mergedIds[k] == MergedIds(items, k)
  }

  lemma TracksAppend(items: seq<JudgmentIdentity>, last: JudgmentIdentity, held: map<string, JudgmentIdentity>,
                     mergedIds: map<string, seq<string>>, order: seq<string>)
    requires Tracks(items, held, mergedIds, order)
    ensures var k := Key(last);
            Tracks(items + [last],
                   held[k := if k in held then Absorb(held[k], last) else last],
                   mergedIds[k := (if k in mergedIds then mergedIds[k] else []) + last.merged],
                   if k in held then order else order + [k])
  {
    hide Key;
    hide Absorb;
    hide Dedupe;
    hide Held;
    hide MergedIds;
    var k := Key(last);
    KeysSnoc(items, last);
    DedupeMembers(Keys(items), k);
    DedupeSnoc(Keys(items), k);
    NothingHeld(items, k);
    hide Elems;
    hide Keys;
    forall key
      ensures Held(items + [last], key) ==
                if k != key then Held(items, key)
                else if Held(items, key).None? then Some(last) else Some(Absorb(Held(items, key).value, last))
      ensures MergedIds(items + [last], key) == MergedIds(items, key) + if k == key then last.merged else []
    {
      HeldSnoc(items, last, key);
    }
  }

  lemma HeldSnoc(items: seq<JudgmentIdentity>, last: JudgmentIdentity, key: string)
    ensures Held(items + [last], key) ==
              if Key(last) != key then Held(items, key)
              else if Held(items, key).None? then Some(last) else Some(Absorb(Held(items, key).value, last))
    ensures MergedIds(items + [last], key) == MergedIds(items, key) + if Key(last) == key then last.merged else []
  {
    hide Key;
    hide Absorb;
    assert (items + [last])[..|items|] == items;
  }

  lemma KeysSnoc(items: seq<JudgmentIdentity>, last: JudgmentIdentity)
    ensures Keys(items + [last]) == Keys(items) + [Key(last)]
    ensures Elems(Keys(items + [last])) == Elems(Keys(items)) + {Key(last)}
  {
    hide Key;
    assert Keys(items + [last]) == Keys(items) + [Key(last)];
    ElemsAppend(Keys(items), Key(last));
  }

  lemma DedupeMembers(s: seq<string>, x: string)
    ensures x in Dedupe(s) <==> x in Elems(s)
  {
    DedupeKeeps(s);
    assert x in Dedupe(s) <==> x in Elems(Dedupe(s));
  }

  lemma DedupeSnoc(s: seq<string>, x: string)
    ensures Dedupe(s + [x]) == if x in Dedupe(s) then Dedupe(s) else Dedupe(s) + [x]
  {
    assert (s + [x])[..|s|] == s;
  }

  lemma {:induction false} NothingHeld(items: seq<JudgmentIdentity>, key: string)
    ensures Held(items, key).None? <==> key !in Elems(Keys(items))
    ensures key !in Elems(Keys(items)) ==> MergedIds(items, key) == []
  {
    hide Key;
    hide Absorb;
    if items != [] {
      var rest, last := items[..|items| - 1], items[|items| - 1];
      NothingHeld(rest, key);
      assert Keys(items) == Keys(rest) + [Key(last)];
      ElemsAppend(Keys(rest), Key(last));
    }
  }

  /** Keeps the first item of each key in ranked order, merging the later ones into it. */
  method RankAndDedupe(leq: (JudgmentIdentity, JudgmentIdentity) -> bool, identities: seq<JudgmentIdentity>)
    returns (output: seq<JudgmentIdentity>)
    ensures var ranked := Rank(leq, identities);
            && |output| == |Dedupe(Keys(ranked))|
            && forall i | 0 <= i < |output| :: IsOutput(ranked, Dedupe(Keys(ranked))[i], output[i])
  {
    var ordered := Rank(leq, identities);
    hide Rank;
    var held: map<string, JudgmentIdentity>, mergedIds: map<string, seq<string>>, order: seq<string> := map[], map[], [];
    hide Key;
    hide MergedIds;
    hide Held;
    assert Tracks([], held, mergedIds, order) by {
      TracksNothing();
    }
    hide Tracks;
    for i := 0 to |ordered|
      invariant Tracks(ordered[..i], held, mergedIds, order)
    {
      var item := ordered[i];
      var key := Key(item);
      assert ordered[..i + 1] == ordered[..i] + [item];
      TracksAppend(ordered[..i], item, held, mergedIds, order);
      TracksKeys(ordered[..i], held, mergedIds, order);
      mergedIds := mergedIds[key := (if key in mergedIds then mergedIds[key] else []) + item.merged];
      if key !in held {
        held := held[key := item];
        order := order + [key];
      } else {
        held := held[key := Absorb(held[key], item)];
      }
    }
    assert ordered[..|ordered|] == ordered;
    TracksKeys(ordered, held, mergedIds, order);
    output := [];
    for i := 0 to |order|
      invariant |output| == i
      invariant forall j | 0 <= j < i :: IsOutput(ordered, order[j], output[j])
    {
      var key := order[i];
      assert key in order;
      var item := held[key];
      output := output + [JudgmentIdentity(item.lookup, item.jid, item.resolution, item.candidate, Dedupe(mergedIds[key]))];
    }
  }

  lemma TracksNothing()
    ensures Tracks([], map[], map[], [])
  {
  }

  lemma TracksKeys(items: seq<JudgmentIdentity>, held: map<string, JudgmentIdentity>, mergedIds: map<string, seq<string>>, order: seq<string>)
    requires Tracks(items, held, mergedIds, order)
    ensures order == Dedupe(Keys(items)) && held.Keys == mergedIds.Keys
    ensures forall k | k in order :: k in held && Held(items, k) == Some(held[k]) && mergedIds[k] == MergedIds(items, k)
  {
    DedupeKeeps(Keys(items));
    hide Held;
    hide MergedIds;
    forall k | k in order
      ensures k in held
    {
      assert k in Elems(order);
    }
  }

  // ----- What the output means ----------------------------------------------------------

  /** The first item of a key, or the first candidate of it. */
  function First(items: seq<JudgmentIdentity>, key: string, candidates: bool): Option<JudgmentIdentity> {
    if items == [] then None
    else
      var last, before := items[|items| - 1], First(items[..|items| - 1], key, candidates);
      if before.Some? then before
      else if Key(last) == key && (candidates ==> last.candidate.Some?) then Some(last)
      else None
  }

  lemma {:induction false} FirstIs(items: seq<JudgmentIdentity>, key: string, candidates: bool)
    ensures First(items, key, candidates).Some? ==>
              var f := First(items, key, candidates).value; f in items && Key(f) == key && (candidates ==> f.candidate.Some?)
    ensures First(items, key, candidates).None? <==> forall x | x in items && Key(x) == key :: candidates && x.candidate.None?
  {
    hide Key;
    if items != [] {
      var rest, last := items[..|items| - 1], items[|items| - 1];
      assert items == rest + [last];
      FirstIs(rest, key, candidates);
    }
  }

  /** In a ranked list the first one is the best one. */
  lemma {:induction false} FirstIsBest(leq: (JudgmentIdentity, JudgmentIdentity) -> bool, items: seq<JudgmentIdentity>, key: string, candidates: bool)
    requires Ranking(leq) && Ranked(leq, items) && First(items, key, candidates).Some?
    ensures forall x | x in items && Key(x) == key && (candidates ==> x.candidate.Some?) :: leq(First(items, key, candidates).value, x)
  {
    hide Key;
    if items != [] {
      var rest, last := items[..|items| - 1], items[|items| - 1];
      assert items == rest + [last];
      FirstIs(rest, key, candidates);
      var f := First(items, key, candidates).value;
      if First(rest, key, candidates).Some? {
        FirstIsBest(leq, rest, key, candidates);
        var i :| 0 <= i < |rest| && rest[i] == f;
        assert leq(items[i], items[|rest|]);
      } else {
        assert leq(last, last);
      }
    }
  }

  /** The held item is the first one; a direct one also carries the first candidate. */
  lemma {:induction false} HeldIs(items: seq<JudgmentIdentity>, key: string)
    ensures var first, candidate := First(items, key, false), First(items, key, true);
            Held(items, key) ==
              if first.None? || first.value.candidate.Some? || candidate.None? then first
              else Some(JudgmentIdentity(first.value.lookup, first.value.jid, candidate.value.resolution, candidate.value.candidate, []))
  {
    hide Key;
    if items != [] {
      var rest, last := items[..|items| - 1], items[|items| - 1];
      HeldIs(rest, key);
      FirstIs(rest, key, false);
      FirstIs(rest, key, true);
    }
  }

  lemma {:induction false} MergedIdsAre(items: seq<JudgmentIdentity>, key: string)
    ensures forall id :: id in MergedIds(items, key) <==> exists x :: x in items && Key(x) == key && id in x.merged
  {
    hide Key;
    if items != [] {
      var rest, last := items[..|items| - 1], items[|items| - 1];
      assert items == rest + [last];
      MergedIdsAre(rest, key);
    }
  }

  /** Best of its key among the identities; with `candidates`, among the candidates of that key. */
  ghost predicate BestOf(leq: (JudgmentIdentity, JudgmentIdentity) -> bool, identities: seq<JudgmentIdentity>, key: string,
                         candidates: bool, best: JudgmentIdentity) {
    && best in identities && Key(best) == key && (candidates ==> best.candidate.Some?)
    && forall x | x in identities && Key(x) == key && (candidates ==> x.candidate.Some?) :: leq(best, x)
  }

  ghost predicate IsDirect(identities: seq<JudgmentIdentity>, key: string) {
    exists x :: x in identities && Key(x) == key && x.candidate.None?
  }

  ghost predicate HasCandidate(identities: seq<JudgmentIdentity>, key: string) {
    exists x :: x in identities && Key(x) == key && x.candidate.Some?
  }

  /** The record of one output entry: the best of its key, except that a direct identity keeps its
      own lookup while it carries the best candidate of the key. */
  ghost predicate Carries(leq: (JudgmentIdentity, JudgmentIdentity) -> bool, identities: seq<JudgmentIdentity>, key: string, out: JudgmentIdentity) {
    && (exists best :: BestOf(leq, identities, key, false, best) && out.lookup == best.lookup && out.jid == best.jid
                       && (IsDirect(identities, key) ==> best.candidate.None?)
                       && (!IsDirect(identities, key) || !HasCandidate(identities, key) ==>
                             out.candidate == best.candidate && out.resolution == best.resolution))
    && (IsDirect(identities, key) && HasCandidate(identities, key) ==>
          exists best :: BestOf(leq, identities, key, true, best) && out.candidate == best.candidate && out.resolution == best.resolution)
  }

  /** One output entry in terms of the identities alone: its record, and the union of the
      identifiers of its key. */
  ghost predicate Merges(leq: (JudgmentIdentity, JudgmentIdentity) -> bool, identities: seq<JudgmentIdentity>, key: string, out: JudgmentIdentity) {
    && Key(out) == key && Carries(leq, identities, key, out)
    && Distinct(out.merged)
    && forall id :: id in out.merged <==> exists x :: x in identities && Key(x) == key && id in x.merged
  }

  lemma BestIs(leq: (JudgmentIdentity, JudgmentIdentity) -> bool, identities: seq<JudgmentIdentity>, key: string, candidates: bool)
    requires Ranking(leq)
    ensures First(Rank(leq, identities), key, candidates).Some? ==>
              BestOf(leq, identities, key, candidates, First(Rank(leq, identities), key, candidates).value)
    ensures First(Rank(leq, identities), key, candidates).None? <==>
              forall x | x in identities && Key(x) == key :: candidates && x.candidate.None?
  {
    var ranked := Rank(leq, identities);
    RankRanks(leq, identities);
    RankKeepsMembers(leq, identities);
    FirstIs(ranked, key, candidates);
    if First(ranked, key, candidates).Some? {
      FirstIsBest(leq, ranked, key, candidates);
    }
    hide Key;
    hide Rank;
    hide First;
    hide Ranking;
    hide Ranked;
  }

  /** Merging a candidate into a direct identity keeps the key, since only a shared judgment
      identifier can bring the two together. */
  lemma KeyKept(direct: JudgmentIdentity, item: JudgmentIdentity)
    requires Key(direct) == Key(item) && direct.candidate.None? && item.candidate.Some?
    ensures Key(JudgmentIdentity(direct.lookup, direct.jid, item.resolution, item.candidate, [])) == Key(direct)
  {
    assert Key(direct)[0] == Key(item)[0];
  }

  lemma KeyIgnoresMerged(item: JudgmentIdentity, merged: seq<string>)
    ensures Key(item.(merged := merged)) == Key(item)
  {
  }

  lemma DirectIsBest(leq: (JudgmentIdentity, JudgmentIdentity) -> bool, identities: seq<JudgmentIdentity>, key: string, best: JudgmentIdentity)
    requires Ranking(leq) && BestOf(leq, identities, key, false, best)
    ensures best.candidate.None? <==> IsDirect(identities, key)
  {
    hide Key;
  }

  lemma HeldCarries(leq: (JudgmentIdentity, JudgmentIdentity) -> bool, identities: seq<JudgmentIdentity>, key: string, held: JudgmentIdentity)
    requires Ranking(leq) && Held(Rank(leq, identities), key) == Some(held)
    ensures Carries(leq, identities, key, held) && Key(held) == key
  {
    hide Key;
    hide Rank;
    hide First;
    hide Held;
    hide Ranking;
    hide BestOf;
    hide IsDirect;
    var ranked := Rank(leq, identities);
    HeldIs(ranked, key);
    BestIs(leq, identities, key, false);
    BestIs(leq, identities, key, true);
    FirstIs(ranked, key, false);
    FirstIs(ranked, key, true);
    var first, candidate := First(ranked, key, false).value, First(ranked, key, true);
    DirectIsBest(leq, identities, key, first);
    if candidate.Some? && first.candidate.None? {
      KeyKept(first, candidate.value);
    }
  }

  lemma MergedAre(leq: (JudgmentIdentity, JudgmentIdentity) -> bool, identities: seq<JudgmentIdentity>, key: string, merged: seq<string>)
    requires Ranking(leq) && merged == Dedupe(MergedIds(Rank(leq, identities), key))
    ensures Distinct(merged)
    ensures forall id :: id in merged <==> exists x :: x in identities && Key(x) == key && id in x.merged
  {
    hide Key;
    hide Rank;
    hide MergedIds;
    hide Ranking;
    var ids := MergedIds(Rank(leq, identities), key);
    MergedIdsAre(Rank(leq, identities), key);
    RankKeepsMembers(leq, identities);
    DedupeKeeps(ids);
    hide Dedupe;
    hide Distinct;
    forall id
      ensures id in merged <==> id in ids
    {
      DedupeMembers(ids, id);
    }
  }

  lemma OutputMerges(leq: (JudgmentIdentity, JudgmentIdentity) -> bool, identities: seq<JudgmentIdentity>, key: string, out: JudgmentIdentity)
    requires Ranking(leq) && IsOutput(Rank(leq, identities), key, out)
    ensures Merges(leq, identities, key, out)
  {
    hide Key;
    hide Rank;
    hide Held;
    hide MergedIds;
    hide Dedupe;
    hide Ranking;
    hide Distinct;
    hide BestOf;
    hide IsDirect;
    hide HasCandidate;
    var held := Held(Rank(leq, identities), key).value;
    HeldCarries(leq, identities, key, held);
    KeyIgnoresMerged(held, out.merged);
    MergedAre(leq, identities, key, out.merged);
  }

  /** Merging conserves the identities: the output keys are exactly the distinct input keys, once
      each, in first-occurrence order of the ranked list, and each entry merges its whole key. */
  lemma DedupeConserves(leq: (JudgmentIdentity, JudgmentIdentity) -> bool, identities: seq<JudgmentIdentity>, output: seq<JudgmentIdentity>)
    requires Ranking(leq)
    requires var ranked := Rank(leq, identities);
             && |output| == |Dedupe(Keys(ranked))|
             && forall i | 0 <= i < |output| :: IsOutput(ranked, Dedupe(Keys(ranked))[i], output[i])
    ensures Keys(output) == Dedupe(Keys(Rank(leq, identities)))
    ensures Distinct(Keys(output)) && forall k :: k in Keys(output) <==> exists x :: x in identities && Key(x) == k
    ensures forall i | 0 <= i < |output| :: Merges(leq, identities, Key(output[i]), output[i])
  {
    var ranked := Rank(leq, identities);
    var keys := Dedupe(Keys(ranked));
    hide Key;
    hide Rank;
    hide Dedupe;
    hide Ranking;
    hide IsOutput;
    hide Distinct;
    forall i | 0 <= i < |output|
      ensures Key(output[i]) == keys[i] && Merges(leq, identities, keys[i], output[i])
    {
      OutputMerges(leq, identities, keys[i], output[i]);
    }
    hide Merges;
    assert Keys(output) == keys;
    DedupeKeeps(Keys(ranked));
    RankKeepsMembers(leq, identities);
    forall k
      ensures k in keys <==> exists x :: x in identities && Key(x) == k
    {
      assert k in keys <==> k in Elems(keys);
      assert k in Keys(ranked) <==> k in Elems(Keys(ranked));
      KeysAre(ranked, k);
    }
  }

  lemma KeysAre(items: seq<JudgmentIdentity>, k: string)
    ensures k in Keys(items) <==> exists x :: x in items && Key(x) == k
  {
    hide Key;
    if x :| x in items && Key(x) == k {
      var i :| 0 <= i < |items| && items[i] == x;
      assert Keys(items)[i] == k;
    }
    if k in Keys(items) {
      var i :| 0 <= i < |items| && Keys(items)[i] == k;
      assert items[i] in items;
    }
  }
}
