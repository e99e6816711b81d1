/** Shared value types and the few facts about sequences, sets and ordered dictionaries
    that several modules use. */
module Collections {

  datatype Option<+T> = None | Some(value: T)

  datatype Result<+T> = Ok(value: T) | Err(error: string)

  /** The members of a sequence. */
  function Elems<T>(s: seq<T>): set<T> {
    set x | x in s
  }

  lemma ElemsAppend<T>(s: seq<T>, x: T)
    ensures Elems(s + [x]) == Elems(s) + {x}
  {
  }

  lemma ElemsConcat<T>(s: seq<T>, t: seq<T>)
    ensures Elems(s + t) == Elems(s) + Elems(t)
  {
  }

  lemma EmptyElems<T>(s: seq<T>)
    ensures Elems(s) == {} <==> s == []
  {
    if s != [] {
      assert s[0] in Elems(s);
    }
  }

  ghost predicate Distinct<T>(s: seq<T>) {
    forall i, j | 0 <= i < j < |s| :: s[i] != s[j]
  }

  lemma DistinctAppend<T>(s: seq<T>, x: T)
    ensures Distinct(s + [x]) <==> Distinct(s) && x !in s
  {
    var all := s + [x];
    assert forall i | 0 <= i < |s| :: all[i] == s[i];
    if Distinct(all) {
      forall i | 0 <= i < |s|
        ensures s[i] != x
      {
        assert all[i] != all[|s|];
      }
    }
  }

  lemma DistinctConcat<T>(a: seq<T>, b: seq<T>)
    ensures Distinct(a + b) <==> Distinct(a) && Distinct(b) && Elems(a) !! Elems(b)
  {
    var c := a + b;
    if Distinct(c) {
      assert forall i | 0 <= i < |a| :: c[i] == a[i];
      forall i, j | 0 <= i < j < |b|
        ensures b[i] != b[j]
      {
        assert c[|a| + i] != c[|a| + j];
      }
      forall i, j | 0 <= i < |a| && 0 <= j < |b|
        ensures a[i] != b[j]
      {
        assert c[i] != c[|a| + j];
      }
    } else {
      ghost var i, j :| 0 <= i < j < |c| && c[i] == c[j];
      if i < |a| <= j {
        assert a[i] in Elems(a) && b[j - |a|] in Elems(b);
      }
    }
  }

  /** Order-preserving removal of repetitions: the first occurrence of each element stays. */
  function Dedupe<T(==)>(s: seq<T>): seq<T> {
    if s == [] then []
    else
      var d := Dedupe(s[..|s| - 1]);
      if s[|s| - 1] in d then d else d + [s[|s| - 1]]
  }

  lemma {:induction false} DedupeKeeps<T>(s: seq<T>)
    ensures Elems(Dedupe(s)) == Elems(s)
    ensures Distinct(Dedupe(s))
    ensures |Dedupe(s)| <= |s|
    ensures Distinct(s) ==> Dedupe(s) == s
  {
    if s != [] {
      var rest, last := s[..|s| - 1], s[|s| - 1];
      DedupeKeeps(rest);
      assert s == rest + [last];
      ElemsAppend(rest, last);
      ElemsAppend(Dedupe(rest), last);
      DistinctAppend(rest, last);
      DistinctAppend(Dedupe(rest), last);
      assert last in Dedupe(rest) <==> last in Elems(Dedupe(rest));
      assert last in rest <==> last in Elems(rest);
      hide Elems;
      hide Distinct;
    }
  }

  lemma DedupeEmpty<T>(s: seq<T>)
    ensures Dedupe(s) == [] <==> s == []
    ensures Distinct(Dedupe(s)) && Elems(Dedupe(s)) == Elems(s)
  {
    DedupeKeeps(s);
    if s != [] {
      assert s[0] in Elems(s);
    }
  }

  /** A sequence without repetitions is as long as the set of its elements. */
  lemma {:induction false} DistinctCardinality<T>(s: seq<T>)
    requires Distinct(s)
    ensures |Elems(s)| == |s|
  {
    if s == [] {
      assert Elems(s) == {};
    } else {
      var rest, last := s[..|s| - 1], s[|s| - 1];
      DistinctCardinality(rest);
      assert Elems(s) == Elems(rest) + {last};
      assert last !in Elems(rest);
    }
  }

  lemma {:induction false} UniqueIsDistinct<T>(s: seq<T>)
    ensures |Elems(s)| <= |s|
    ensures |Elems(s)| == |s| <==> Distinct(s)
  {
    if s == [] {
      assert Elems(s) == {};
    } else {
      var rest, last := s[..|s| - 1], s[|s| - 1];
      UniqueIsDistinct(rest);
      assert s == rest + [last];
      assert Elems(s) == Elems(rest) + {last};
    }
  }

  /** Whether a list is free of repetitions, by comparing it with the set of its elements. */
  predicate AllUnique<T(==)>(s: seq<T>)
    ensures AllUnique(s) <==> Distinct(s)
  {
    UniqueIsDistinct(s);
    |s| == |Elems(s)|
  }

  /** No set is larger than a set that contains it. */
  lemma {:induction false} SubsetCardinality<T>(a: set<T>, b: set<T>)
    requires a <= b
    ensures |a| <= |b|
    ensures |a| == |b| ==> a == b
    decreases a
  {
    if a != {} {
      var x :| x in a;
      SubsetCardinality(a - {x}, b - {x});
      if |a| == |b| {
        assert a - {x} == b - {x};
        assert a == (a - {x}) + {x};
        assert b == (b - {x}) + {x};
      }
    } else if |a| == |b| {
      assert b == {};
    }
  }

  lemma DifferenceEmpty<T>(a: set<T>, b: set<T>)
    ensures a - b == {} <==> a <= b
  {
    if a - b == {} {
      forall x | x in a
        ensures x in b
      {
        assert x in b || x in a - b;
      }
    }
  }

  /** Appends a code when its condition holds. */
  function AddIf(reasons: seq<string>, condition: bool, code: string): (r: seq<string>)
    ensures Elems(r) == Elems(reasons) + if condition then {code} else {}
    ensures r == [] <==> reasons == [] && !condition
  {
    ElemsAppend(reasons, code);
    if condition then reasons + [code] else reasons
  }

  predicate OccursAt(s: string, part: string, i: int) {
    0 <= i <= |s| - |part| && s[i..i + |part|] == part
  }

  predicate Contains(s: string, part: string) {
    exists i | 0 <= i <= |s| :: OccursAt(s, part, i)
  }

  predicate IsSpace(c: char) {
    || '\t' <= c <= '\r' || '\U{1c}' <= c <= ' ' || c == '\U{85}' || c == '\U{a0}' || c == '\U{1680}' || '\U{2000}' <= c <= '\U{200a}'
    || '\U{2028}' <= c <= '\U{2029}' || c == '\U{202f}' || c == '\U{205f}' || c == '\U{3000}'
  }

  /** Nothing but white space. */
  predicate Blank(s: string) {
    forall c | c in s :: IsSpace(c)
  }

  /** The white space of Python's strings, by code point. */
  const SPACES: set<int> := {
    9, 10, 11, 12, 13, 28, 29, 30, 31, 32, 133, 160, 5760, 8192, 8193, 8194, 8195, 8196, 8197, 8198, 8199, 8200, 8201, 8202,
    8232, 8233, 8239, 8287, 12288}

  lemma SpacesAre(c: char)
    ensures IsSpace(c) <==> c as int in SPACES
  {
  }

  lemma BlankMeans(s: string)
    ensures Blank(s) <==> forall c | c in s :: c as int in SPACES
  {
    forall c: char
      ensures IsSpace(c) <==> c as int in SPACES
    {
      SpacesAre(c);
    }
  }
}
