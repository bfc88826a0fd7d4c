/** Byte order on identifiers and the stable sort behind every `sort_by` call of the director. */
module Ordering {

  /** Lexicographic order, as `String::cmp` compares ASCII text. */
  predicate StringLeq(a: string, b: string) {
    a == "" || (b != "" && (a[0] < b[0] || (a[0] == b[0] && StringLeq(a[1..], b[1..]))))
  }

  lemma {:induction false} StringLeqTotal(a: string, b: string)
    ensures StringLeq(a, b) || StringLeq(b, a)
  {
    if a != "" && b != "" && a[0] == b[0] {
      StringLeqTotal(a[1..], b[1..]);
    }
  }

  lemma {:induction false} StringLeqAntisymmetric(a: string, b: string)
    requires StringLeq(a, b) && StringLeq(b, a)
    ensures a == b
  {
    if a != "" && b != "" {
      StringLeqAntisymmetric(a[1..], b[1..]);
      assert a == [a[0]] + a[1..] && b == [b[0]] + b[1..];
    }
  }

  lemma {:induction false} StringLeqTransitive(a: string, b: string, c: string)
    requires StringLeq(a, b) && StringLeq(b, c)
    ensures StringLeq(a, c)
  {
    if a != "" && a[0] == b[0] == c[0] {
      StringLeqTransitive(a[1..], b[1..], c[1..]);
    }
  }

  ghost predicate TotalPreorder<T(!new)>(leq: (T, T) -> bool) {
    && (forall x, y :: leq(x, y) || leq(y, x))
    && (forall x, y, z :: leq(x, y) && leq(y, z) ==> leq(x, z))
  }

  ghost predicate SortedBy<T>(leq: (T, T) -> bool, s: seq<T>) {
    forall i, j :: 0 <= i < j < |s| ==> leq(s[i], s[j])
  }

  function Insert<T>(leq: (T, T) -> bool, x: T, s: seq<T>): seq<T> {
    if s == [] then [x]
    else if leq(x, s[0]) then [x] + s
    else [s[0]] + Insert(leq, x, s[1..])
  }

  /** A stable sort: an element never overtakes an equal one that stood before it. */
  function Sort<T>(leq: (T, T) -> bool, s: seq<T>): seq<T> {
    if s == [] then [] else Insert(leq, s[0], Sort(leq, s[1..]))
  }

  lemma {:induction false} InsertPermutes<T>(leq: (T, T) -> bool, x: T, s: seq<T>)
    ensures multiset(Insert(leq, x, s)) == multiset(s) + multiset{x}
  {
    if s != [] && !leq(x, s[0]) {
      InsertPermutes(leq, x, s[1..]);
      assert s == [s[0]] + s[1..];
    }
  }

  lemma {:induction false} SortPermutes<T>(leq: (T, T) -> bool, s: seq<T>)
    ensures multiset(Sort(leq, s)) == multiset(s)
  {
    if s != [] {
      SortPermutes(leq, s[1..]);
      InsertPermutes(leq, s[0], Sort(leq, s[1..]));
      assert s == [s[0]] + s[1..];
    }
  }

  lemma SortMembers<T(!new)>(leq: (T, T) -> bool, s: seq<T>)
    ensures |Sort(leq, s)| == |s|
    ensures forall x :: x in Sort(leq, s) <==> x in s
  {
    SortPermutes(leq, s);
    assert |multiset(Sort(leq, s))| == |multiset(s)|;
    forall x ensures x in Sort(leq, s) <==> x in s {
      assert x in Sort(leq, s) <==> x in multiset(Sort(leq, s));
      assert x in s <==> x in multiset(s);
    }
  }

  lemma {:induction false} InsertSorts<T(!new)>(leq: (T, T) -> bool, x: T, s: seq<T>)
    requires TotalPreorder(leq) && SortedBy(leq, s)
    ensures SortedBy(leq, Insert(leq, x, s))
  {
    if s != [] && !leq(x, s[0]) {
      InsertSorts(leq, x, s[1..]);
      InsertPermutes(leq, x, s[1..]);
      var rest := Insert(leq, x, s[1..]);
      forall j | 0 <= j < |rest| ensures leq(s[0], rest[j]) {
        assert rest[j] in multiset(rest);
        assert rest[j] == x || rest[j] in s[1..];
      }
    }
  }

  lemma {:induction false} SortSorts<T(!new)>(leq: (T, T) -> bool, s: seq<T>)
    requires TotalPreorder(leq)
    ensures SortedBy(leq, Sort(leq, s))
  {
    if s != [] {
      SortSorts(leq, s[1..]);
      InsertSorts(leq, s[0], Sort(leq, s[1..]));
    }
  }

  /** The head of a sorted list is one of its elements and precedes every other one. */
  lemma HeadIsLeast<T(!new)>(leq: (T, T) -> bool, s: seq<T>)
    requires TotalPreorder(leq) && s != []
    ensures Sort(leq, s) != [] && Sort(leq, s)[0] in s
    ensures forall x :: x in s ==> leq(Sort(leq, s)[0], x)
  {
    SortMembers(leq, s);
    SortSorts(leq, s);
    forall x | x in s ensures leq(Sort(leq, s)[0], x) {
      var sorted := Sort(leq, s);
      var i :| 0 <= i < |sorted| && sorted[i] == x;
      assert leq(sorted[0], sorted[0]);
    }
  }

  /** Because the sort is stable, its head is the first of the least elements. */
  lemma {:induction false} HeadIsFirstLeast<T(!new)>(leq: (T, T) -> bool, s: seq<T>) returns (k: nat)
    requires TotalPreorder(leq) && s != []
    ensures k < |s| && Sort(leq, s) != [] && Sort(leq, s)[0] == s[k]
    ensures forall j :: 0 <= j < |s| ==> leq(s[k], s[j])
    ensures forall j :: 0 <= j < k ==> !leq(s[j], s[k])
  {
    HeadIsLeast(leq, s);
    if |s| == 1 || leq(s[0], Sort(leq, s[1..])[0]) {
      assert s[1..] == [] || Sort(leq, s[1..]) != [] by { SortMembers(leq, s[1..]); }
      k := 0;
    } else {
      SortMembers(leq, s[1..]);
      var rest := HeadIsFirstLeast(leq, s[1..]);
      k := rest + 1;
      forall j | 0 <= j < k ensures !leq(s[j], s[k]) {
        if j > 0 {
          assert s[j] == s[1..][j - 1];
        }
      }
    }
  }

  /** Sorting records by a key and then projecting equals projecting and sorting by the same key. */
  lemma {:induction false} SortProjects<T(!new), U>(leqT: (T, T) -> bool, leqU: (U, U) -> bool, f: T -> U, s: seq<T>)
    requires forall x, y :: x in s && y in s ==> leqT(x, y) == leqU(f(x), f(y))
    ensures Map(f, Sort(leqT, s)) == Sort(leqU, Map(f, s))
  {
    if s != [] {
      SortProjects(leqT, leqU, f, s[1..]);
      SortMembers(leqT, s[1..]);
      forall y | y in Sort(leqT, s[1..]) ensures leqT(s[0], y) == leqU(f(s[0]), f(y)) {
        assert y in s[1..];
      }
      InsertProjects(leqT, leqU, f, s[0], Sort(leqT, s[1..]));
      assert Map(f, s)[1..] == Map(f, s[1..]);
    }
  }

  lemma {:induction false} InsertProjects<T(!new), U>(leqT: (T, T) -> bool, leqU: (U, U) -> bool, f: T -> U,
                                                        x: T, s: seq<T>)
    requires forall y :: y in s ==> leqT(x, y) == leqU(f(x), f(y))
    ensures Map(f, Insert(leqT, x, s)) == Insert(leqU, f(x), Map(f, s))
  {
    if s != [] && !leqT(x, s[0]) {
      InsertProjects(leqT, leqU, f, x, s[1..]);
      assert Map(f, s)[1..] == Map(f, s[1..]);
    }
  }

  function Map<T, U>(f: T -> U, s: seq<T>): (r: seq<U>)
    ensures |r| == |s|
    ensures forall i :: 0 <= i < |s| ==> r[i] == f(s[i])
  {
    if s == [] then [] else [f(s[0])] + Map(f, s[1..])
  }

  function Filter<T>(keep: T -> bool, s: seq<T>): seq<T> {
    if s == [] then []
    else if keep(s[0]) then [s[0]] + Filter(keep, s[1..])
    else Filter(keep, s[1..])
  }

  lemma {:induction false} FilterMembers<T(!new)>(keep: T -> bool, s: seq<T>)
    ensures forall x :: x in Filter(keep, s) <==> x in s && keep(x)
  {
    if s != [] {
      FilterMembers(keep, s[1..]);
      assert s == [s[0]] + s[1..];
    }
  }

  lemma {:induction false} FilterAppends<T(!new)>(keep: T -> bool, a: seq<T>, b: seq<T>)
    ensures Filter(keep, a + b) == Filter(keep, a) + Filter(keep, b)
  {
    if a == [] {
      assert a + b == b;
    } else {
      FilterAppends(keep, a[1..], b);
      assert (a + b)[0] == a[0] && (a + b)[1..] == a[1..] + b;
    }
  }

  /** What one more element adds to a filtered projection. */
  lemma FilterGrows<T(!new)>(keep: T -> bool, s: seq<T>, i: nat)
    requires i < |s|
    ensures Filter(keep, s[..i + 1]) == Filter(keep, s[..i]) + (if keep(s[i]) then [s[i]] else [])
  {
    assert s[..i + 1] == s[..i] + [s[i]];
    FilterAppends(keep, s[..i], [s[i]]);
    assert Filter(keep, [s[i]][1..]) == [];
  }

  lemma MapGrows<T, U>(f: T -> U, s: seq<T>, x: T)
    ensures Map(f, s + [x]) == Map(f, s) + [f(x)]
  {
  }
}
