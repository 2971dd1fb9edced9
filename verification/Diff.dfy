/** The path-level difference between two cached schemas. */
module Diff {
  import opened Ordering
  import opened Querier
  import opened SchemaTypes

  datatype PathDiff = PathDiff(onlyInA: seq<string>, onlyInB: seq<string>, common: seq<string>)

  // What a difference promises about the two path lists.
  ghost predicate IsDiff(a: seq<string>, b: seq<string>, d: PathDiff) {
    && Ascending(d.onlyInA) && Ascending(d.onlyInB) && Ascending(d.common)
    && (forall p :: p in d.onlyInA <==> p in a && p !in b)
    && (forall p :: p in d.onlyInB <==> p in b && p !in a)
    && (forall p :: p in d.common <==> p in a && p in b)
  }

  method SetOf(s: seq<string>) returns (r: set<string>)
    ensures forall p :: p in r <==> p in s
  {
    r := {};
    for i := 0 to |s|
      invariant forall p :: p in r <==> p in s[..i]
    {
      assert s[..i + 1] == s[..i] + [s[i]];
      r := r + {s[i]};
    }
    assert s[..|s|] == s;
  }

  // The two loops run over a map, in any order.
  method Compare(a: seq<string>, b: seq<string>) returns (d: PathDiff)
    ensures IsDiff(a, b, d)
  {
    var pa := SetOf(a);
    var pb := SetOf(b);
    var onlyInA, onlyInB, common := [], [], [];
    var left := pa;
    while left != {}
      invariant left <= pa
      invariant Lists(onlyInA, pa - left, pb, false) && Lists(common, pa - left, pb, true)
    {
      var p :| p in left;
      assert pa - (left - {p}) == pa - left + {p};
      if p in pb {
        ListOneMore(common, pa - left, pb, p);
        common := common + [p];
      } else {
        ListOneMore(onlyInA, pa - left, pb, p);
        onlyInA := onlyInA + [p];
      }
      left := left - {p};
    }
    left := pb;
    while left != {}
      invariant left <= pb
      invariant Lists(onlyInB, pb - left, pa, false)
    {
      var p :| p in left;
      assert pb - (left - {p}) == pb - left + {p};
      if p !in pa {
        ListOneMore(onlyInB, pb - left, pa, p);
        onlyInB := onlyInB + [p];
      }
      left := left - {p};
    }
    assert pa - {} == pa && pb - {} == pb;
    SortListed(onlyInA, pa, pb, false);
    SortListed(onlyInB, pb, pa, false);
    SortListed(common, pa, pb, true);
    d := PathDiff(Sort(onlyInA), Sort(onlyInB), Sort(common));
  }

  // A list that holds once each member of `s` that is, or is not, in `other`.
  ghost predicate Lists(list: seq<string>, s: set<string>, other: set<string>, shared: bool) {
    forall p :: multiset(list)[p] == if p in s && (p in other <==> shared) then 1 else 0
  }

  lemma ListOneMore(list: seq<string>, s: set<string>, other: set<string>, p: string)
    requires Lists(list, s, other, p in other) && p !in s
    ensures Lists(list + [p], s + {p}, other, p in other)
  {
  }

  lemma SortListed(list: seq<string>, s: set<string>, other: set<string>, shared: bool)
    requires Lists(list, s, other, shared)
    ensures Ascending(Sort(list)) && forall p :: p in Sort(list) <==> p in s && (p in other <==> shared)
  {
    SortSorts(list);
    forall p
      ensures p in Sort(list) <==> multiset(list)[p] == 1
    {
      assert p in Sort(list) <==> p in multiset(Sort(list));
    }
    SortedOnceIsAscending(Sort(list));
  }

  /** Properties of a difference. */

  // It depends on neither the order nor the repetition of the paths, nor on the order in which
  // the maps are walked.
  lemma DiffDependsOnPathsOnly(a: seq<string>, b: seq<string>, d: PathDiff, a': seq<string>, b': seq<string>, d': PathDiff)
    requires IsDiff(a, b, d) && IsDiff(a', b', d')
    requires (forall p :: p in a <==> p in a') && (forall p :: p in b <==> p in b')
    ensures d == d'
  {
    AscendingIsUnique(d.onlyInA, d'.onlyInA);
    AscendingIsUnique(d.onlyInB, d'.onlyInB);
    AscendingIsUnique(d.common, d'.common);
  }

  lemma DiffSwaps(a: seq<string>, b: seq<string>, d: PathDiff, d': PathDiff)
    requires IsDiff(a, b, d) && IsDiff(b, a, d')
    ensures d' == PathDiff(d.onlyInB, d.onlyInA, d.common)
  {
    DiffDependsOnPathsOnly(b, a, d', b, a, PathDiff(d.onlyInB, d.onlyInA, d.common));
  }

  // Either list is recovered from the difference, sorted and without repetition.
  lemma DiffRecovers(a: seq<string>, b: seq<string>, d: PathDiff)
    requires IsDiff(a, b, d)
    ensures var left := Sort(d.onlyInA + d.common); Ascending(left) && forall p :: p in left <==> p in a
    ensures var right := Sort(d.onlyInB + d.common); Ascending(right) && forall p :: p in right <==> p in b
  {
    Merges(d.onlyInA, d.common);
    Merges(d.onlyInB, d.common);
  }

  lemma Merges(s: seq<string>, t: seq<string>)
    requires Ascending(s) && Ascending(t) && forall p :: !(p in s && p in t)
    ensures Ascending(Sort(s + t)) && forall p :: p in Sort(s + t) <==> p in s || p in t
  {
    SortSorts(s + t);
    forall p
      ensures p in Sort(s + t) <==> p in s || p in t
      ensures p in Sort(s + t) ==> multiset(Sort(s + t))[p] == 1
    {
      AscendingOccursOnce(s, p);
      AscendingOccursOnce(t, p);
      assert p in Sort(s + t) <==> p in multiset(Sort(s + t));
    }
    SortedOnceIsAscending(Sort(s + t));
  }

  // Two lists declare the same paths exactly when the difference has nothing on either side,
  // and then all of them are common.
  lemma EmptyDiffExactly(a: seq<string>, b: seq<string>, d: PathDiff)
    requires IsDiff(a, b, d)
    ensures d.onlyInA == [] && d.onlyInB == [] <==> (forall p :: p in a <==> p in b)
  {
    if d.onlyInA == [] && d.onlyInB == [] {
      forall p
        ensures p in a <==> p in b
      {
        assert p !in d.onlyInA && p !in d.onlyInB;
      }
    }
    if d.onlyInA != [] {
      assert d.onlyInA[0] in a && d.onlyInA[0] !in b;
    }
    if d.onlyInB != [] {
      assert d.onlyInB[0] in b && d.onlyInB[0] !in a;
    }
  }

  // Over the path lists of two caches the difference compares what their services declare.
  lemma DiffComparesDeclarations(a: Services, b: Services, pathsOfA: seq<string>, pathsOfB: seq<string>, d: PathDiff, path: string)
    requires Listing(a, "", pathsOfA) && Listing(b, "", pathsOfB) && IsDiff(pathsOfA, pathsOfB, d)
    ensures path in d.common <==> Declared(a, path) && Declared(b, path)
    ensures path in d.onlyInA <==> Declared(a, path) && !Declared(b, path)
    ensures path in d.onlyInB <==> Declared(b, path) && !Declared(a, path)
  {
    ListedExactly(a, "", pathsOfA, path);
    ListedExactly(b, "", pathsOfB, path);
  }
}
