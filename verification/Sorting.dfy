/** Sorting of identifiers: the one list of a given collection in ascending order. */
module Sorting {
  import opened Collections

  /** Lexicographic order on strings, by code point. */
  predicate Leq(a: string, b: string) {
    a == [] || (b != [] && (a[0] < b[0] || (a[0] == b[0] && Leq(a[1..], b[1..]))))
  }

  lemma {:induction false} LeqTotal(a: string, b: string)
    ensures Leq(a, b) || Leq(b, a)
    ensures Leq(a, b) && Leq(b, a) ==> a == b
    decreases |a|
  {
    if a != [] && b != [] {
      LeqTotal(a[1..], b[1..]);
      assert a == [a[0]] + a[1..] && b == [b[0]] + b[1..];
    }
  }

  lemma {:induction false} LeqTransitive(a: string, b: string, c: string)
    requires Leq(a, b) && Leq(b, c)
    ensures Leq(a, c)
    decreases |a|
  {
    if a != [] && a[0] == b[0] == c[0] {
      LeqTransitive(a[1..], b[1..], c[1..]);
    }
  }

  ghost predicate Ascending(s: seq<string>) {
    forall i, j | 0 <= i < j < |s| :: Leq(s[i], s[j])
  }

  function Insert(s: seq<string>, x: string): seq<string> {
    if s == [] then [x]
    else if Leq(x, s[0]) then [x] + s
    else [s[0]] + Insert(s[1..], x)
  }

  function Sort(s: seq<string>): seq<string> {
    if s == [] then [] else Insert(Sort(s[..|s| - 1]), s[|s| - 1])
  }

  lemma {:induction false} InsertSorts(s: seq<string>, x: string)
    requires Ascending(s)
    ensures Ascending(Insert(s, x))
    ensures Elems(Insert(s, x)) == Elems(s) + {x}
    ensures |Insert(s, x)| == |s| + 1
  {
    if s != [] {
      LeqTotal(x, s[0]);
      HeadTail(s);
      if Leq(x, s[0]) {
        HeadBelow(x, s);
        HeadTail([x] + s);
      } else {
        var rest := Insert(s[1..], x);
        InsertSorts(s[1..], x);
        assert Leq(s[0], x) && (|s| > 1 ==> Leq(s[0], s[1]));
        assert rest[0] == x || (|s| > 1 && rest[0] == s[1]);
        hide Leq;
        HeadBelow(s[0], rest);
        HeadTail([s[0]] + rest);
        hide Ascending;
      }
    }
  }

  lemma HeadBelow(x: string, s: seq<string>)
    requires s != [] && Ascending(s) && Leq(x, s[0])
    ensures Ascending([x] + s)
  {
    forall j | 0 <= j < |s|
      ensures Leq(x, s[j])
    {
      if j > 0 {
        LeqTransitive(x, s[0], s[j]);
      }
    }
  }

  lemma HeadTail(s: seq<string>)
    requires s != []
    ensures s == [s[0]] + s[1..]
    ensures Elems(s) == {s[0]} + Elems(s[1..])
  {
  }

  lemma {:induction false} SortSorts(s: seq<string>)
    ensures Ascending(Sort(s)) && Elems(Sort(s)) == Elems(s) && |Sort(s)| == |s|
  {
    if s != [] {
      var rest, last := s[..|s| - 1], s[|s| - 1];
      SortSorts(rest);
      InsertSorts(Sort(rest), last);
      assert s == rest + [last];
      assert Elems(s) == Elems(rest) + {last};
    }
  }

  /** Sorting keeps the absence of repetitions. */
  lemma SortKeepsDistinct(s: seq<string>)
    ensures Distinct(s) <==> Distinct(Sort(s))
  {
    SortSorts(s);
    UniqueIsDistinct(s);
    UniqueIsDistinct(Sort(s));
  }

  /** Two ascending lists without repetitions of the same elements are the same list. */
  lemma {:induction false} AscendingUnique(s: seq<string>, t: seq<string>)
    requires Ascending(s) && Ascending(t) && Distinct(s) && Distinct(t) && Elems(s) == Elems(t)
    ensures s == t
    decreases |s|
  {
    if s == [] || t == [] {
      DistinctCardinality(s);
      DistinctCardinality(t);
    } else {
      HeadTail(s);
      HeadTail(t);
      assert s[0] in Elems(t) && t[0] in Elems(s);
      LeqTotal(s[0], t[0]);
      assert s[0] == t[0];
      assert s[0] !in Elems(s[1..]) && t[0] !in Elems(t[1..]);
      assert Elems(s[1..]) == Elems(s) - {s[0]};
      assert Elems(t[1..]) == Elems(t) - {t[0]};
      AscendingUnique(s[1..], t[1..]);
    }
  }

  /** The elements of a set in ascending order. */
  ghost function SortedSet(s: set<string>): (r: seq<string>)
    ensures Elems(r) == s && Distinct(r) && Ascending(r)
  {
    var listed := Listing(s);
    SortSorts(listed);
    SortKeepsDistinct(listed);
    Sort(listed)
  }

  ghost function Listing(s: set<string>): (r: seq<string>)
    ensures Elems(r) == s && Distinct(r)
  {
    if s == {} then []
    else
      var x :| x in s;
      var rest := Listing(s - {x});
      assert Elems(rest + [x]) == Elems(rest) + {x};
      assert x !in Elems(rest);
      rest + [x]
  }

  /** For a list without repetitions, sorting it and sorting the set of its elements agree. */
  lemma SortedSetIsSort(s: seq<string>)
    requires Distinct(s)
    ensures SortedSet(Elems(s)) == Sort(s)
  {
    SortSorts(s);
    SortKeepsDistinct(s);
    AscendingUnique(SortedSet(Elems(s)), Sort(s));
  }
}
