/** Ascending lists of strings. Strings compare character by character, as UTF-8 bytes do. */
module Ordering {
  predicate Below(a: string, b: string) {
    b != "" && (a == "" || a[0] < b[0] || (a[0] == b[0] && Below(a[1..], b[1..])))
  }

  // The first i characters agree, and then a ends or has the smaller character.
  predicate DifferAt(a: string, b: string, i: nat) {
    i <= |a| && i < |b| && a[..i] == b[..i] && (i == |a| || a[i] < b[i])
  }

  lemma {:induction false} BelowExactly(a: string, b: string)
    ensures Below(a, b) <==> exists i: nat :: DifferAt(a, b, i)
  {
    forall i: nat | i > 0 && DifferAt(a, b, i)
      ensures a != "" && b != "" && a[0] == b[0]
    {
      assert a[..i][0] == b[..i][0];
    }
    if a == "" || b == "" || a[0] != b[0] {
      assert Below(a, b) <==> DifferAt(a, b, 0);
    } else {
      BelowExactly(a[1..], b[1..]);
      if i: nat :| DifferAt(a[1..], b[1..], i) {
        assert a[..i + 1] == [a[0]] + a[1..][..i] && b[..i + 1] == [b[0]] + b[1..][..i];
        assert DifferAt(a, b, i + 1);
      }
      if i: nat :| DifferAt(a, b, i) {
        assert a[1..][..i - 1] == a[..i][1..] && b[1..][..i - 1] == b[..i][1..];
        assert DifferAt(a[1..], b[1..], i - 1);
      }
    }
  }

  lemma {:induction false} BelowIsTotal(a: string, b: string)
    ensures Below(a, b) || a == b || Below(b, a)
    ensures !(Below(a, b) && Below(b, a)) && !Below(a, a)
  {
    if a != "" && b != "" && a[0] == b[0] {
      BelowIsTotal(a[1..], b[1..]);
      assert a == [a[0]] + a[1..] && b == [b[0]] + b[1..];
    }
    if a != "" {
      BelowIsTotal(a[1..], a[1..]);
    }
  }

  lemma {:induction false} BelowIsTransitive(a: string, b: string, c: string)
    requires Below(a, b) && Below(b, c)
    ensures Below(a, c)
  {
    if a != "" && a[0] == b[0] == c[0] {
      BelowIsTransitive(a[1..], b[1..], c[1..]);
    }
  }

  // Strings with a common prefix lie together in the order.
  lemma {:induction false} PrefixIsConvex(prefix: string, a: string, b: string, c: string)
    requires prefix <= a && prefix <= c && !Below(b, a) && !Below(c, b)
    ensures prefix <= b
  {
    if prefix != "" {
      assert a[0] == prefix[0] == c[0];
      assert b != "" && a[0] <= b[0] <= c[0];
      PrefixIsConvex(prefix[1..], a[1..], b[1..], c[1..]);
      assert b == [b[0]] + b[1..] && prefix == [prefix[0]] + prefix[1..];
    }
  }

  predicate Sorted(s: seq<string>) {
    forall i, j | 0 <= i < j < |s| :: !Below(s[j], s[i])
  }

  predicate Ascending(s: seq<string>) {
    forall i, j | 0 <= i < j < |s| :: Below(s[i], s[j])
  }

  lemma SmallestFirst(a: seq<string>, b: seq<string>)
    requires Sorted(a) && multiset(a) == multiset(b) && b != [] && a != []
    ensures !Below(b[0], a[0])
  {
    assert b[0] in multiset(b);
    var i :| 0 <= i < |a| && a[i] == b[0];
    BelowIsTotal(a[0], a[0]);
  }

  lemma SameFirst(a: seq<string>, b: seq<string>)
    requires Sorted(a) && Sorted(b) && multiset(a) == multiset(b) && a != [] && b != []
    ensures a[0] == b[0]
  {
    SmallestFirst(a, b);
    SmallestFirst(b, a);
    BelowIsTotal(a[0], b[0]);
  }

  lemma WithoutFirst(s: seq<string>)
    requires s != []
    ensures multiset(s[1..]) == multiset(s) - multiset{s[0]}
  {
    assert s == [s[0]] + s[1..];
  }

  // A sorted list is determined by how often each string occurs in it.
  lemma {:induction false} SortedIsUnique(a: seq<string>, b: seq<string>)
    requires Sorted(a) && Sorted(b) && multiset(a) == multiset(b)
    ensures a == b
  {
    assert |a| == |multiset(a)| == |multiset(b)| == |b|;
    if a != [] {
      SameFirst(a, b);
      WithoutFirst(a);
      WithoutFirst(b);
      SortedIsUnique(a[1..], b[1..]);
      assert a == [a[0]] + a[1..] && b == [b[0]] + b[1..];
    }
  }

  // An ascending list holds each of its strings once.
  lemma {:induction false} AscendingOccursOnce(s: seq<string>, x: string)
    requires Ascending(s)
    ensures multiset(s)[x] == if x in s then 1 else 0
  {
    if s != [] {
      assert s == [s[0]] + s[1..];
      AscendingOccursOnce(s[1..], x);
      BelowIsTotal(x, x);
      assert s[0] !in s[1..] by {
        forall i | 0 <= i < |s[1..]| ensures s[1..][i] != s[0] {
          assert Below(s[0], s[i + 1]);
          BelowIsTotal(s[0], s[0]);
        }
      }
    }
  }

  lemma OccursAgain(s: seq<string>, i: nat, j: nat)
    requires i < j < |s| && s[i] == s[j]
    ensures multiset(s)[s[i]] >= 2
  {
    assert s == s[..j] + s[j..];
    assert s[..j][i] == s[i] && s[j..][0] == s[i];
    assert s[i] in multiset(s[..j]) && s[i] in multiset(s[j..]);
  }

  lemma SortedOnceIsAscending(s: seq<string>)
    requires Sorted(s) && forall x | x in s :: multiset(s)[x] == 1
    ensures Ascending(s)
  {
    forall i, j | 0 <= i < j < |s|
      ensures Below(s[i], s[j])
    {
      BelowIsTotal(s[i], s[j]);
      if s[i] == s[j] {
        OccursAgain(s, i, j);
      }
    }
  }

  lemma AscendingIsSorted(s: seq<string>)
    requires Ascending(s)
    ensures Sorted(s)
  {
    forall i, j | 0 <= i < j < |s|
      ensures !Below(s[j], s[i])
    {
      BelowIsTotal(s[i], s[j]);
    }
  }

  // An ascending list is determined by which strings it holds.
  lemma AscendingIsUnique(a: seq<string>, b: seq<string>)
    requires Ascending(a) && Ascending(b) && forall x :: x in a <==> x in b
    ensures a == b
  {
    forall x
      ensures multiset(a)[x] == multiset(b)[x]
    {
      AscendingOccursOnce(a, x);
      AscendingOccursOnce(b, x);
    }
    AscendingIsSorted(a);
    AscendingIsSorted(b);
    SortedIsUnique(a, b);
  }

  /** Sorting. */

  function Insert(x: string, s: seq<string>): seq<string> {
    if s == [] || !Below(s[0], x) then [x] + s else [s[0]] + Insert(x, s[1..])
  }

  function Sort(s: seq<string>): seq<string> {
    if s == [] then [] else Insert(s[0], Sort(s[1..]))
  }

  lemma {:induction false} InsertSorts(x: string, s: seq<string>)
    requires Sorted(s)
    ensures Sorted(Insert(x, s)) && multiset(Insert(x, s)) == multiset(s) + multiset{x}
  {
    if s == [] {
    } else if !Below(s[0], x) {
      forall j | 0 <= j < |s|
        ensures !Below(s[j], x)
      {
        SortedFromFirst(x, s, j);
      }
    } else {
      assert s == [s[0]] + s[1..];
      InsertSorts(x, s[1..]);
      var rest := Insert(x, s[1..]);
      forall j | 0 <= j < |rest|
        ensures !Below(rest[j], s[0])
      {
        assert rest[j] in multiset(rest);
        BelowIsTotal(s[0], x);
        if rest[j] != x {
          assert rest[j] in s[1..];
        }
      }
    }
  }

  lemma SortedFromFirst(x: string, s: seq<string>, j: nat)
    requires Sorted(s) && j < |s| && !Below(s[0], x)
    ensures !Below(s[j], x)
  {
    if Below(s[j], x) && j > 0 {
      BelowIsTotal(s[0], s[j]);
      if s[0] != s[j] {
        BelowIsTransitive(s[0], s[j], x);
      }
    }
  }

  lemma {:induction false} SortSorts(s: seq<string>)
    ensures Sorted(Sort(s)) && multiset(Sort(s)) == multiset(s)
  {
    if s != [] {
      assert s == [s[0]] + s[1..];
      SortSorts(s[1..]);
      InsertSorts(s[0], Sort(s[1..]));
    }
  }
}
