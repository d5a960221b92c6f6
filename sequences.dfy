/**
 * Sequence operations shared by the list handling of the terrain code:
 * LINQ-style Where, Distinct and (stable) OrderBy, and the ordinal string
 * order used for names.
 */
module Sequences {
  /** Enumerable.Where: the elements satisfying p, in their original order. */
  function Filter<T>(s: seq<T>, p: T -> bool): (r: seq<T>)
    ensures |r| <= |s|
    ensures forall i :: 0 <= i < |r| ==> r[i] in s && p(r[i])
    ensures forall i :: 0 <= i < |s| && p(s[i]) ==> s[i] in r
  {
    if s == [] then [] else Filter(s[..|s|-1], p) + (if p(s[|s|-1]) then [s[|s|-1]] else [])
  }

  /** Filtering one element further along a sequence. */
  lemma FilterPrefixStep<T>(s: seq<T>, i: nat, p: T -> bool)
    requires i < |s|
    ensures Filter(s[..i + 1], p) == Filter(s[..i], p) + (if p(s[i]) then [s[i]] else [])
  {
    assert s[..i + 1][..i] == s[..i];
  }

  /** Enumerable.Reverse. */
  function Reverse<T>(s: seq<T>): (r: seq<T>)
    ensures |r| == |s|
    ensures forall i :: 0 <= i < |s| ==> r[i] == s[|s| - 1 - i]
  {
    if s == [] then [] else [s[|s|-1]] + Reverse(s[..|s|-1])
  }

  predicate NoDuplicates<T(==)>(s: seq<T>)
  {
    forall i, j :: 0 <= i < j < |s| ==> s[i] != s[j]
  }

  /** Enumerable.Distinct: every element once, at the place it first occurs. */
  function Distinct<T(==)>(s: seq<T>): (r: seq<T>)
    ensures forall i :: 0 <= i < |r| ==> r[i] in s
    ensures forall i :: 0 <= i < |s| ==> s[i] in r
    ensures NoDuplicates(r)
    ensures |r| <= |s|
  {
    if s == [] then []
    else
      var d := Distinct(s[..|s|-1]);
      if s[|s|-1] in d then d else d + [s[|s|-1]]
  }

  /** A duplicate-free sequence is one whose multiset has no element twice. */
  lemma {:induction false} NoDuplicatesIffSingleCounts<T>(s: seq<T>)
    ensures NoDuplicates(s) <==> forall x :: multiset(s)[x] <= 1
  {
    if s == [] {
    } else {
      var t := s[1..];
      assert s == [s[0]] + t;
      NoDuplicatesIffSingleCounts(t);
      if NoDuplicates(s) {
        assert s[0] !in t;
        assert NoDuplicates(t) by {
          forall i, j | 0 <= i < j < |t| ensures t[i] != t[j] {
            assert t[i] == s[i + 1] && t[j] == s[j + 1];
          }
        }
      } else {
        var i, j :| 0 <= i < j < |s| && s[i] == s[j];
        var x := s[i];
        assert s == s[..j] + s[j..];
        assert x in s[..j] && x in s[j..];
        assert multiset(s) == multiset(s[..j]) + multiset(s[j..]);
        assert multiset(s)[x] >= 2;
      }
    }
  }

  /** Reordering a sequence keeps it duplicate-free. */
  lemma PermutationKeepsNoDuplicates<T>(a: seq<T>, b: seq<T>)
    requires multiset(a) == multiset(b) && NoDuplicates(a)
    ensures NoDuplicates(b)
  {
    NoDuplicatesIffSingleCounts(a);
    NoDuplicatesIffSingleCounts(b);
  }

  // ---------------------------------------------------------------------
  // Ordinal string order (String.CompareOrdinal)

  /** a sorts no later than b: lexicographic by character code, a prefix first. */
  predicate LexLe(a: string, b: string)
  {
    |a| == 0 || (|b| > 0 && (a[0] < b[0] || (a[0] == b[0] && LexLe(a[1..], b[1..]))))
  }

  lemma {:induction false} LexLeTotal(a: string, b: string)
    ensures LexLe(a, b) || LexLe(b, a)
  {
    if |a| > 0 && |b| > 0 && a[0] == b[0] {
      LexLeTotal(a[1..], b[1..]);
    }
  }

  lemma {:induction false} LexLeTransitive(a: string, b: string, c: string)
    requires LexLe(a, b) && LexLe(b, c)
    ensures LexLe(a, c)
  {
    if |a| > 0 && |b| > 0 && |c| > 0 && a[0] == b[0] && b[0] == c[0] {
      LexLeTransitive(a[1..], b[1..], c[1..]);
    }
  }

  lemma {:induction false} LexLeAntisymmetric(a: string, b: string)
    requires LexLe(a, b) && LexLe(b, a)
    ensures a == b
  {
    if |a| > 0 && |b| > 0 {
      LexLeAntisymmetric(a[1..], b[1..]);
      assert a == [a[0]] + a[1..] && b == [b[0]] + b[1..];
    }
  }

  // ---------------------------------------------------------------------
  // Sorting by a key (Enumerable.OrderBy, stable)

  /** le is total and transitive: a total preorder on keys. */
  ghost predicate TotalPreorder<K(!new)>(le: (K, K) -> bool)
  {
    (forall a, b :: le(a, b) || le(b, a)) &&
    (forall a, b, c :: le(a, b) && le(b, c) ==> le(a, c))
  }

  lemma LexLeIsTotalPreorder()
    ensures TotalPreorder(LexLe)
  {
    forall a, b ensures LexLe(a, b) || LexLe(b, a) {
      LexLeTotal(a, b);
    }
    forall a, b, c | LexLe(a, b) && LexLe(b, c) ensures LexLe(a, c) {
      LexLeTransitive(a, b, c);
    }
  }

  /** Every element's key is no greater than every later element's key. */
  ghost predicate SortedBy<T, K>(s: seq<T>, key: T -> K, le: (K, K) -> bool)
  {
    forall i, j :: 0 <= i < j < |s| ==> le(key(s[i]), key(s[j]))
  }

  /** Places x before the first element whose key it does not exceed. */
  function Insert<T, K>(x: T, s: seq<T>, key: T -> K, le: (K, K) -> bool): seq<T>
  {
    if s == [] then [x]
    else if le(key(x), key(s[0])) then [x] + s
    else [s[0]] + Insert(x, s[1..], key, le)
  }

  /** Insertion sort; an element goes before later elements with an equal key, so the sort is stable. */
  function SortBy<T, K>(s: seq<T>, key: T -> K, le: (K, K) -> bool): seq<T>
  {
    if s == [] then [] else Insert(s[0], SortBy(s[1..], key, le), key, le)
  }

  lemma {:induction false} InsertPermutes<T, K>(x: T, s: seq<T>, key: T -> K, le: (K, K) -> bool)
    ensures multiset(Insert(x, s, key, le)) == multiset(s) + multiset{x}
  {
    if s != [] && !le(key(x), key(s[0])) {
      InsertPermutes(x, s[1..], key, le);
      assert s == [s[0]] + s[1..];
    }
  }

  /** The sorted sequence holds exactly the input's elements, each as often. */
  lemma {:induction false} SortByPermutes<T, K>(s: seq<T>, key: T -> K, le: (K, K) -> bool)
    ensures multiset(SortBy(s, key, le)) == multiset(s)
    ensures |SortBy(s, key, le)| == |s|
  {
    if s != [] {
      SortByPermutes(s[1..], key, le);
      InsertPermutes(s[0], SortBy(s[1..], key, le), key, le);
      assert s == [s[0]] + s[1..];
    }
    assert |multiset(SortBy(s, key, le))| == |multiset(s)|;
  }

  /** A sorted sequence behind an element no greater than any of its keys is sorted. */
  lemma ConsSorted<T, K>(h: T, t: seq<T>, key: T -> K, le: (K, K) -> bool)
    requires SortedBy(t, key, le)
    requires forall j :: 0 <= j < |t| ==> le(key(h), key(t[j]))
    ensures SortedBy([h] + t, key, le)
  {
    var r := [h] + t;
    forall i, j | 0 <= i < j < |r| ensures le(key(r[i]), key(r[j])) {
      assert r[j] == t[j - 1];
      if i > 0 {
        assert r[i] == t[i - 1];
      }
    }
  }

  lemma SortedTail<T, K>(s: seq<T>, key: T -> K, le: (K, K) -> bool)
    requires s != [] && SortedBy(s, key, le)
    ensures SortedBy(s[1..], key, le)
  {
    forall i, j | 0 <= i < j < |s[1..]| ensures le(key(s[1..][i]), key(s[1..][j])) {
      assert s[1..][i] == s[i + 1] && s[1..][j] == s[j + 1];
    }
  }

  lemma InsertMembers<T, K>(x: T, s: seq<T>, key: T -> K, le: (K, K) -> bool)
    ensures forall y :: y in Insert(x, s, key, le) ==> y == x || y in s
  {
    InsertPermutes(x, s, key, le);
    forall y | y in Insert(x, s, key, le) ensures y == x || y in s {
      assert y in multiset(Insert(x, s, key, le));
    }
  }

  lemma {:induction false} InsertSorted<T, K(!new)>(x: T, s: seq<T>, key: T -> K, le: (K, K) -> bool)
    requires TotalPreorder(le) && SortedBy(s, key, le)
    ensures SortedBy(Insert(x, s, key, le), key, le)
  {
    if s == [] {
    } else if le(key(x), key(s[0])) {
      forall j | 0 <= j < |s| ensures le(key(x), key(s[j])) {
        if j > 0 {
          assert le(key(s[0]), key(s[j]));
        }
      }
      ConsSorted(x, s, key, le);
    } else {
      var t := Insert(x, s[1..], key, le);
      SortedTail(s, key, le);
      InsertSorted(x, s[1..], key, le);
      InsertMembers(x, s[1..], key, le);
      forall j | 0 <= j < |t| ensures le(key(s[0]), key(t[j])) {
        assert t[j] in t;
        if t[j] != x {
          var k :| 0 <= k < |s[1..]| && s[1..][k] == t[j];
          assert s[k + 1] == t[j];
        }
      }
      ConsSorted(s[0], t, key, le);
    }
  }

  /** Under a total preorder the result of SortBy is sorted by key. */
  lemma {:induction false} SortBySorted<T, K(!new)>(s: seq<T>, key: T -> K, le: (K, K) -> bool)
    requires TotalPreorder(le)
    ensures SortedBy(SortBy(s, key, le), key, le)
  {
    if s != [] {
      SortBySorted(s[1..], key, le);
      InsertSorted(s[0], SortBy(s[1..], key, le), key, le);
    }
  }

  /** Index of the first occurrence of x, or -1 (List.IndexOf / Array.IndexOf). */
  function IndexOf<T(==)>(s: seq<T>, x: T): (r: int)
    ensures -1 <= r < |s|
    ensures r == -1 <==> x !in s
    ensures 0 <= r ==> s[r] == x && x !in s[..r]
  {
    if s == [] then -1
    else if s[0] == x then 0
    else var k := IndexOf(s[1..], x); if k == -1 then -1 else k + 1
  }
}
