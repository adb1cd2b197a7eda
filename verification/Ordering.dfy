/** Total orders, the sort the standard library applies, and what makes a sorted list unique.

Every list in a plan is sorted before it is rendered, so that an unchanged revision renders
byte-identically.  The facts here are what that rests on: a sort is a permutation, and two
sorted permutations of the same elements are the same list. */
module Ordering {

  // ---- a preorder that is total and transitive, given as a function ----

  ghost predicate TotalPreorder<T(!new)>(le: (T, T) -> bool) {
    && (forall x, y :: le(x, y) || le(y, x))
    && (forall x, y, z :: le(x, y) && le(y, z) ==> le(x, z))
  }

  /** No two different elements of s tie: then the sorted order of s is unique. */
  ghost predicate NoTies<T(!new)>(le: (T, T) -> bool, s: seq<T>) {
    forall x, y :: x in s && y in s && le(x, y) && le(y, x) ==> x == y
  }

  ghost predicate SortedBy<T>(le: (T, T) -> bool, s: seq<T>) {
    forall i, j :: 0 <= i < j < |s| ==> le(s[i], s[j])
  }

  function Insert<T>(le: (T, T) -> bool, x: T, s: seq<T>): (r: seq<T>)
    ensures multiset(r) == multiset{x} + multiset(s)
  {
    if s == [] then [x]
    else if le(x, s[0]) then [x] + s
    else
      var rest := Insert(le, x, s[1..]);
      assert s == [s[0]] + s[1..];
      [s[0]] + rest
  }

  function Sort<T>(le: (T, T) -> bool, s: seq<T>): (r: seq<T>)
    ensures multiset(r) == multiset(s)
    ensures |r| == |s|
  {
    if s == [] then []
    else
      assert s == [s[0]] + s[1..];
      var r := Insert(le, s[0], Sort(le, s[1..]));
      assert |multiset(r)| == |r| && |multiset(s)| == |s|;
      r
  }

  lemma SameElements<T>(a: seq<T>, b: seq<T>)
    requires multiset(a) == multiset(b)
    ensures forall x :: x in a <==> x in b
    ensures |a| == |b|
  {
    forall x ensures x in a <==> x in b {
      assert x in a <==> x in multiset(a);
      assert x in b <==> x in multiset(b);
    }
    assert |multiset(a)| == |a| && |multiset(b)| == |b|;
  }

  lemma {:induction false} InsertSorted<T(!new)>(le: (T, T) -> bool, x: T, s: seq<T>)
    requires TotalPreorder(le) && SortedBy(le, s)
    ensures SortedBy(le, Insert(le, x, s))
  {
    if s != [] && !le(x, s[0]) {
      InsertSorted(le, x, s[1..]);
      var rest := Insert(le, x, s[1..]);
      forall y | y in rest ensures le(s[0], y) {
        assert y in multiset(rest);
        assert y == x || y in s[1..];
        if y != x {
          var k :| 0 <= k < |s[1..]| && s[1..][k] == y;
          assert le(s[0], s[k + 1]);
        }
      }
    }
  }

  lemma {:induction false} SortSorted<T(!new)>(le: (T, T) -> bool, s: seq<T>)
    requires TotalPreorder(le)
    ensures SortedBy(le, Sort(le, s))
  {
    if s != [] {
      SortSorted(le, s[1..]);
      InsertSorted(le, s[0], Sort(le, s[1..]));
    }
  }

  lemma LeastFirst<T(!new)>(le: (T, T) -> bool, a: seq<T>, b: seq<T>)
    requires SortedBy(le, a) && SortedBy(le, b)
    requires a != [] && multiset(a) == multiset(b)
    requires NoTies(le, a)
    ensures b != [] && a[0] == b[0]
  {
    SameElements(a, b);
    assert a[0] in b && b[0] in a;
    var i :| 0 <= i < |b| && b[i] == a[0];
    var j :| 0 <= j < |a| && a[j] == b[0];
    if i > 0 && j > 0 {
      assert le(b[0], b[i]) && le(a[0], a[j]);
    }
  }

  lemma {:induction false} SortedUnique<T(!new)>(le: (T, T) -> bool, a: seq<T>, b: seq<T>)
    requires SortedBy(le, a) && SortedBy(le, b)
    requires multiset(a) == multiset(b)
    requires NoTies(le, a)
    ensures a == b
  {
    SameElements(a, b);
    if a != [] {
      LeastFirst(le, a, b);
      assert a == [a[0]] + a[1..] && b == [b[0]] + b[1..];
      assert multiset(a[1..]) == multiset(a) - multiset{a[0]};
      assert multiset(b[1..]) == multiset(b) - multiset{a[0]};
      SortedTail(le, a);
      SortedTail(le, b);
      SortedUnique(le, a[1..], b[1..]);
    }
  }

  lemma SortedTail<T(!new)>(le: (T, T) -> bool, a: seq<T>)
    requires SortedBy(le, a) && a != []
    ensures SortedBy(le, a[1..])
  {
  }

  /** Sorting forgets the order its input came in. */
  lemma SortForgetsOrder<T(!new)>(le: (T, T) -> bool, a: seq<T>, b: seq<T>)
    requires TotalPreorder(le) && NoTies(le, a)
    requires multiset(a) == multiset(b)
    ensures Sort(le, a) == Sort(le, b)
  {
    SortSorted(le, a);
    SortSorted(le, b);
    SameElements(a, Sort(le, a));
    SortedUnique(le, Sort(le, a), Sort(le, b));
  }

  /** A list that is already sorted is its own sort. */
  lemma SortOfSorted<T(!new)>(le: (T, T) -> bool, a: seq<T>)
    requires TotalPreorder(le) && NoTies(le, a) && SortedBy(le, a)
    ensures Sort(le, a) == a
  {
    SortSorted(le, a);
    SortedUnique(le, a, Sort(le, a));
  }

  // ---- duplicate-free lists ----

  ghost predicate Distinct<T(!new)>(s: seq<T>) {
    forall i, j :: 0 <= i < j < |s| ==> s[i] != s[j]
  }

  lemma {:induction false} DistinctMultiset<T(!new)>(s: seq<T>)
    ensures Distinct(s) <==> forall x :: multiset(s)[x] <= 1
  {
    if s != [] {
      assert s == [s[0]] + s[1..];
      DistinctMultiset(s[1..]);
      if Distinct(s) {
        forall i, j | 0 <= i < j < |s[1..]| ensures s[1..][i] != s[1..][j] {
          assert s[i + 1] != s[j + 1];
        }
        assert s[0] !in s[1..];
        assert multiset(s[1..])[s[0]] == 0;
      } else {
        var i, j :| 0 <= i < j < |s| && s[i] == s[j];
        if i == 0 {
          assert s[0] == s[1..][j - 1];
          assert s[0] in multiset(s[1..]);
          assert multiset(s)[s[0]] >= 2;
        } else {
          assert s[1..][i - 1] == s[1..][j - 1];
          assert !Distinct(s[1..]);
          var x :| multiset(s[1..])[x] > 1;
          assert multiset(s)[x] > 1;
        }
      }
    }
  }

  lemma DistinctSameElements<T(!new)>(a: seq<T>, b: seq<T>)
    requires Distinct(a) && Distinct(b)
    requires forall x :: x in a <==> x in b
    ensures multiset(a) == multiset(b)
  {
    DistinctMultiset(a);
    DistinctMultiset(b);
    forall x ensures multiset(a)[x] == multiset(b)[x] {
      assert x in multiset(a) <==> x in a;
      assert x in multiset(b) <==> x in b;
    }
  }

  lemma DistinctPermutation<T(!new)>(a: seq<T>, b: seq<T>)
    requires Distinct(a) && multiset(a) == multiset(b)
    ensures Distinct(b)
  {
    DistinctMultiset(a);
    DistinctMultiset(b);
  }

  // ---- the byte order of strings ----

  predicate LexLe(a: string, b: string)
    decreases |a|
  {
    a == "" || (b != "" && (a[0] < b[0] || (a[0] == b[0] && LexLe(a[1..], b[1..]))))
  }

  lemma LexTotal(a: string, b: string)
    ensures LexLe(a, b) || LexLe(b, a)
    decreases |a|
  {
    if a != "" && b != "" && a[0] == b[0] {
      LexTotal(a[1..], b[1..]);
    }
  }

  lemma LexTransitive(a: string, b: string, c: string)
    requires LexLe(a, b) && LexLe(b, c)
    ensures LexLe(a, c)
    decreases |a|
  {
    if a != "" && a[0] == b[0] && b[0] == c[0] {
      LexTransitive(a[1..], b[1..], c[1..]);
    }
  }

  lemma LexAntisymmetric(a: string, b: string)
    requires LexLe(a, b) && LexLe(b, a)
    ensures a == b
    decreases |a|
  {
    if a != "" {
      LexAntisymmetric(a[1..], b[1..]);
      assert a == [a[0]] + a[1..] && b == [b[0]] + b[1..];
    }
  }

  lemma LexPreorder()
    ensures TotalPreorder(LexLe)
  {
    forall x, y ensures LexLe(x, y) || LexLe(y, x) { LexTotal(x, y); }
    forall x, y, z | LexLe(x, y) && LexLe(y, z) ensures LexLe(x, z) { LexTransitive(x, y, z); }
  }

  lemma LexNoTies(s: seq<string>)
    ensures NoTies(LexLe, s)
  {
    forall x, y | LexLe(x, y) && LexLe(y, x) ensures x == y { LexAntisymmetric(x, y); }
  }

  /** The names of a set in sorted order: what collecting a map's keys and sorting them yields. */
  ghost function SortedNames(names: set<string>): (r: seq<string>)
    ensures SortedBy(LexLe, r) && Distinct(r)
    ensures forall x :: x in r <==> x in names
  {
    SomeListing(names);
    var r :| SortedBy(LexLe, r) && Distinct(r) && forall x :: x in r <==> x in names;
    r
  }

  lemma SomeDistinctListing(names: set<string>) returns (listed: seq<string>)
    ensures Distinct(listed) && forall x :: x in listed <==> x in names
  {
    listed := [];
    if names != {} {
      var x :| x in names;
      var rest := SomeDistinctListing(names - {x});
      listed := [x] + rest;
      assert x !in rest;
    }
  }

  lemma SomeListing(names: set<string>)
    ensures exists r: seq<string> :: SortedBy(LexLe, r) && Distinct(r) && forall x :: x in r <==> x in names
  {
    var listed := SomeDistinctListing(names);
    LexPreorder();
    SortSorted(LexLe, listed);
    DistinctPermutation(listed, Sort(LexLe, listed));
    SameElements(listed, Sort(LexLe, listed));
  }

  /** Any duplicate-free listing of a set sorts to the same sequence, in whatever order it was made. */
  lemma ListingSorts(listed: seq<string>, names: set<string>)
    requires Distinct(listed) && forall x :: x in listed <==> x in names
    ensures Sort(LexLe, listed) == SortedNames(names)
  {
    LexPreorder();
    SortSorted(LexLe, listed);
    LexNoTies(Sort(LexLe, listed));
    DistinctSameElements(listed, SortedNames(names));
    SortedUnique(LexLe, Sort(LexLe, listed), SortedNames(names));
  }
}
