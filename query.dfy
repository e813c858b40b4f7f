/**
 * The two QuerySet operations the views compose: filter (keep the rows a
 * predicate accepts, in their order) and order_by (a sorted permutation
 * under a total preorder of the ordering keys).
 */
module Query {

  /** le(a, b): a may come before b. Total and transitive, as an SQL ORDER BY key comparison is. */
  ghost predicate TotalPreorder<T(!new)>(le: (T, T) -> bool)
  {
    && (forall a, b :: le(a, b) || le(b, a))
    && (forall a, b, c :: le(a, b) && le(b, c) ==> le(a, c))
  }

  ghost predicate SortedBy<T>(s: seq<T>, le: (T, T) -> bool)
  {
    forall i, j :: 0 <= i < j < |s| ==> le(s[i], s[j])
  }

  /** filter(): the rows satisfying p, each as often as in s, in their original order. */
  function Filter<T(!new)>(s: seq<T>, p: T -> bool): (r: seq<T>)
    ensures forall x :: multiset(r)[x] == if p(x) then multiset(s)[x] else 0
    ensures forall i :: 0 <= i < |r| ==> p(r[i])
    ensures |r| <= |s|
  {
    if s == [] then []
    else
      assert s == [s[0]] + s[1..];
      if p(s[0]) then [s[0]] + Filter(s[1..], p) else Filter(s[1..], p)
  }

  /** Filtering keeps relative order: what was sorted under any ordering stays sorted. */
  lemma {:induction false} FilterKeepsOrder<T(!new)>(s: seq<T>, p: T -> bool, le: (T, T) -> bool)
    requires SortedBy(s, le)
    ensures SortedBy(Filter(s, p), le)
  {
    if s != [] {
      FilterKeepsOrder(s[1..], p, le);
      var rest := Filter(s[1..], p);
      if p(s[0]) {
        forall k | 0 <= k < |rest| ensures le(s[0], rest[k]) {
          assert multiset(rest)[rest[k]] > 0;
          assert rest[k] in s[1..];
        }
      }
    }
  }

  function Insert<T(!new)>(x: T, s: seq<T>, le: (T, T) -> bool): (r: seq<T>)
    requires TotalPreorder(le)
    ensures multiset(r) == multiset(s) + multiset{x}
    ensures |r| == |s| + 1
    ensures SortedBy(s, le) ==> SortedBy(r, le)
  {
    if s == [] then [x]
    else if le(x, s[0]) then
      assert SortedBy(s, le) ==> forall k :: 0 <= k < |s| ==> le(x, s[k]);
      [x] + s
    else
      var rest := Insert(x, s[1..], le);
      assert s == [s[0]] + s[1..];
      assert SortedBy(s, le) ==> forall k :: 0 <= k < |rest| ==> le(s[0], rest[k]) by {
        if SortedBy(s, le) {
          forall k | 0 <= k < |rest| ensures le(s[0], rest[k]) {
            assert rest[k] in multiset(s[1..]) + multiset{x};
          }
        }
      }
      [s[0]] + rest
  }

  /** order_by(): a permutation of s, sorted under le. */
  function SortBy<T(!new)>(s: seq<T>, le: (T, T) -> bool): (r: seq<T>)
    requires TotalPreorder(le)
    ensures multiset(r) == multiset(s)
    ensures |r| == |s|
    ensures SortedBy(r, le)
  {
    if s == [] then []
    else
      assert s == [s[0]] + s[1..];
      Insert(s[0], SortBy(s[1..], le), le)
  }

  /** No two distinct rows of s tie under le. */
  ghost predicate NoTies<T>(s: seq<T>, le: (T, T) -> bool)
  {
    forall a, b :: a in s && b in s && le(a, b) && le(b, a) ==> a == b
  }

  /**
   * When no two distinct rows tie under le, the sorted order is unique: any two
   * sorted permutations of the same rows are equal, whatever order the rows came in.
   */
  lemma {:induction false} SortedUnique<T>(r1: seq<T>, r2: seq<T>, le: (T, T) -> bool)
    requires SortedBy(r1, le) && SortedBy(r2, le)
    requires multiset(r1) == multiset(r2)
    requires NoTies(r1, le)
    ensures r1 == r2
    decreases |r1|
  {
    if r1 != [] {
      SortedHeadsEqual(r1, r2, le);
      MultisetTail(r1);
      MultisetTail(r2);
      SortedTail(r1, le);
      SortedTail(r2, le);
      NoTiesTail(r1, le);
      SortedUnique(r1[1..], r2[1..], le);
      SameHeadSameTail(r1, r2);
    }
  }

  lemma SameHeadSameTail<T>(r1: seq<T>, r2: seq<T>)
    requires r1 != [] && r2 != [] && r1[0] == r2[0] && r1[1..] == r2[1..]
    ensures r1 == r2
  {
    assert r1 == [r1[0]] + r1[1..];
    assert r2 == [r2[0]] + r2[1..];
  }

  /** Two sorted permutations of the same untied rows start with the same row. */
  lemma SortedHeadsEqual<T>(r1: seq<T>, r2: seq<T>, le: (T, T) -> bool)
    requires SortedBy(r1, le) && SortedBy(r2, le)
    requires multiset(r1) == multiset(r2)
    requires NoTies(r1, le) && r1 != []
    ensures r2 != [] && r1[0] == r2[0]
  {
    assert r1[0] in multiset(r2);
    SortedHeadFirst(r1, r2[0], le);
    SortedHeadFirst(r2, r1[0], le);
    assert r2[0] in multiset(r1);
  }

  /** The first row of a sorted sequence may precede every row in it. */
  lemma SortedHeadFirst<T>(r: seq<T>, x: T, le: (T, T) -> bool)
    requires SortedBy(r, le) && x in multiset(r)
    ensures r[0] == x || le(r[0], x)
  {
    var k :| 0 <= k < |r| && r[k] == x;
    assert k == 0 || le(r[0], r[k]);
  }

  lemma SortedTail<T>(r: seq<T>, le: (T, T) -> bool)
    requires SortedBy(r, le) && r != []
    ensures SortedBy(r[1..], le)
  {
    var t := r[1..];
    forall i, j | 0 <= i < j < |t| ensures le(t[i], t[j]) {
      assert t[i] == r[i + 1] && t[j] == r[j + 1];
    }
  }

  lemma NoTiesTail<T>(r: seq<T>, le: (T, T) -> bool)
    requires NoTies(r, le) && r != []
    ensures NoTies(r[1..], le)
  {
    forall a, b | a in r[1..] && b in r[1..] && le(a, b) && le(b, a) ensures a == b {
      assert a in r && b in r;
    }
  }

  lemma MultisetTail<T>(s: seq<T>)
    requires s != []
    ensures multiset(s[1..]) == multiset(s) - multiset{s[0]}
  {
    assert s == [s[0]] + s[1..];
  }

  /** Sorting does not depend on the order rows are stored in, when no two rows tie. */
  lemma SortIndependentOfStorage<T(!new)>(s1: seq<T>, s2: seq<T>, le: (T, T) -> bool)
    requires TotalPreorder(le)
    requires multiset(s1) == multiset(s2)
    requires NoTies(s1, le)
    ensures SortBy(s1, le) == SortBy(s2, le)
  {
    var r1 := SortBy(s1, le);
    forall a, b | a in r1 && b in r1 && le(a, b) && le(b, a) ensures a == b {
      assert a in multiset(s1) && b in multiset(s1);
    }
    SortedUnique(r1, SortBy(s2, le), le);
  }

  /** Applies f to every row (building one output row per input row). */
  function MapSeq<T, U>(s: seq<T>, f: T --> U): (r: seq<U>)
    requires forall i :: 0 <= i < |s| ==> f.requires(s[i])
    ensures |r| == |s|
    ensures forall i :: 0 <= i < |s| ==> r[i] == f(s[i])
  {
    seq(|s|, i requires 0 <= i < |s| && f.requires(s[i]) => f(s[i]))
  }

  lemma MapSeqConcat<T, U>(a: seq<T>, b: seq<T>, f: T --> U)
    requires forall i :: 0 <= i < |a| ==> f.requires(a[i])
    requires forall i :: 0 <= i < |b| ==> f.requires(b[i])
    ensures multiset(MapSeq(a + b, f)) == multiset(MapSeq(a, f)) + multiset(MapSeq(b, f))
  {
    var ab := a + b;
    assert forall i :: 0 <= i < |ab| ==> f.requires(ab[i]) by {
      forall i | 0 <= i < |ab| ensures f.requires(ab[i]) {
        if i < |a| { assert ab[i] == a[i]; } else { assert ab[i] == b[i - |a|]; }
      }
    }
    assert MapSeq(ab, f) == MapSeq(a, f) + MapSeq(b, f);
  }

  /** Mapping a permutation gives a permutation of the mapped rows. */
  lemma {:induction false} MapSeqPermutation<T, U>(s1: seq<T>, s2: seq<T>, f: T --> U)
    requires forall i :: 0 <= i < |s1| ==> f.requires(s1[i])
    requires forall i :: 0 <= i < |s2| ==> f.requires(s2[i])
    requires multiset(s1) == multiset(s2)
    ensures multiset(MapSeq(s1, f)) == multiset(MapSeq(s2, f))
    decreases |s1|
  {
    if s1 == [] {
      assert |s2| == |multiset(s2)| == 0;
    } else {
      var x := s1[0];
      assert x in multiset(s2);
      var k :| 0 <= k < |s2| && s2[k] == x;
      var left, right, tail := s2[..k], s2[k + 1..], s1[1..];
      var rest := left + right;
      assert s2 == left + [x] + right;
      assert s1 == [x] + tail;
      MultisetTail(s1);
      MultisetWithout(s2, k);
      assert multiset(tail) == multiset(rest);
      MapSeqConcat(left, right, f);
      MapSeqPermutation(tail, rest, f);
      MapSeqConcat([x], tail, f);
      MapSeqConcat(left, [x], f);
      MapSeqConcat(left + [x], right, f);
      assert MapSeq([x], f) == [f(x)];
    }
  }

  /** Removing the row at index k removes one copy of it from the multiset. */
  lemma MultisetWithout<T>(s: seq<T>, k: nat)
    requires k < |s|
    ensures multiset(s[..k] + s[k + 1..]) == multiset(s) - multiset{s[k]}
  {
    assert s == s[..k] + [s[k]] + s[k + 1..];
  }
}
