/** `Array.prototype.filter` and `Array.prototype.sort` with a comparator, as
    the job lists use them: a filter that keeps order and multiplicity, and a
    sort by a total preorder `le` ("a may come before b"). */
module Sorting {

  ghost predicate TotalPreorder<T(!new)>(le: (T, T) -> bool) {
    && (forall a, b :: le(a, b) || le(b, a))
    && (forall a, b, c :: le(a, b) && le(b, c) ==> le(a, c))
  }

  ghost predicate Sorted<T>(s: seq<T>, le: (T, T) -> bool) {
    forall i, j :: 0 <= i < j < |s| ==> le(s[i], s[j])
  }

  /** Places `x` before the first element it may precede. */
  function Insert<T(!new)>(x: T, t: seq<T>, le: (T, T) -> bool): (r: seq<T>)
    requires TotalPreorder(le)
    requires Sorted(t, le)
    ensures multiset(r) == multiset(t) + multiset{x}
    ensures Sorted(r, le)
    ensures |r| == |t| + 1
  {
    if t == [] || le(x, t[0]) then
      [x] + t
    else
      var rest := Insert(x, t[1..], le);
      assert t == [t[0]] + t[1..];
      assert forall k :: 0 <= k < |rest| ==> le(t[0], rest[k]) by {
        forall k | 0 <= k < |rest| ensures le(t[0], rest[k]) {
          assert rest[k] in multiset(rest);
          assert rest[k] == x || rest[k] in multiset(t[1..]);
          if rest[k] != x {
            var m :| 0 <= m < |t[1..]| && t[1..][m] == rest[k];
            assert t[m + 1] == rest[k];
          }
        }
      }
      [t[0]] + rest
  }

  /** The jobs sorted by `le`: a sorted permutation of the input. */
  function SortBy<T(!new)>(s: seq<T>, le: (T, T) -> bool): (r: seq<T>)
    requires TotalPreorder(le)
    ensures multiset(r) == multiset(s)
    ensures Sorted(r, le)
    ensures |r| == |s|
  {
    if s == [] then []
    else
      assert s == [s[0]] + s[1..];
      Insert(s[0], SortBy(s[1..], le), le)
  }

  /** `s.filter(p)` */
  function Keep<T(==,!new)>(s: seq<T>, p: T -> bool): (r: seq<T>)
    ensures |r| <= |s|
    ensures forall i :: 0 <= i < |r| ==> p(r[i])
    decreases |s|
  {
    if s == [] then [] else (if p(s[0]) then [s[0]] else []) + Keep(s[1..], p)
  }

  /** Filtering keeps every passing element as often as it occurs, and drops the rest. */
  lemma {:induction false} KeepCount<T(!new)>(s: seq<T>, p: T -> bool)
    ensures forall x :: multiset(Keep(s, p))[x] == if p(x) then multiset(s)[x] else 0
    decreases |s|
  {
    if s != [] {
      KeepCount(s[1..], p);
      assert s == [s[0]] + s[1..];
    }
  }

  /** An element is kept exactly when it occurs and passes. */
  lemma KeepMembers<T(!new)>(s: seq<T>, p: T -> bool, x: T)
    ensures x in Keep(s, p) <==> x in s && p(x)
  {
    var r := Keep(s, p);
    KeepCount(s, p);
    assert x in r <==> multiset(r)[x] > 0;
    assert x in s <==> multiset(s)[x] > 0;
  }

  /** Filtering a sorted sequence leaves it sorted. */
  lemma {:induction false} KeepSorted<T(!new)>(s: seq<T>, p: T -> bool, le: (T, T) -> bool)
    requires Sorted(s, le)
    ensures Sorted(Keep(s, p), le)
    decreases |s|
  {
    if s != [] {
      var tail := s[1..];
      assert Sorted(tail, le) by {
        forall i, j | 0 <= i < j < |tail| ensures le(tail[i], tail[j]) {
          assert tail[i] == s[i + 1] && tail[j] == s[j + 1];
        }
      }
      KeepSorted(tail, p, le);
      var rest := Keep(tail, p);
      assert Keep(s, p) == (if p(s[0]) then [s[0]] else []) + rest;
      if p(s[0]) {
        forall k | 0 <= k < |rest| ensures le(s[0], rest[k]) {
          KeepMembers(tail, p, rest[k]);
          var m :| 0 <= m < |tail| && tail[m] == rest[k];
          assert s[m + 1] == rest[k];
        }
        var r := [s[0]] + rest;
        forall i, j | 0 <= i < j < |r| ensures le(r[i], r[j]) {
          assert r[j] == rest[j - 1];
          if i > 0 { assert r[i] == rest[i - 1]; }
        }
      }
    }
  }

  /** Comparing by a key under a total preorder is again a total preorder. */
  lemma ByKey<T(!new), K(!new)>(key: T -> K, le: (K, K) -> bool)
    requires TotalPreorder(le)
    ensures TotalPreorder((a: T, b: T) => le(key(a), key(b)))
  {
  }

  /** Code-point lexicographic order on strings: `a` sorts no later than `b`. */
  predicate LexLe(a: string, b: string) {
    a == [] || (b != [] && (a[0] < b[0] || (a[0] == b[0] && LexLe(a[1..], b[1..]))))
  }

  lemma {:induction false} LexTotal(a: string, b: string)
    ensures LexLe(a, b) || LexLe(b, a)
    decreases |a|
  {
    if a != [] && b != [] && a[0] == b[0] {
      LexTotal(a[1..], b[1..]);
    }
  }

  lemma {:induction false} LexTrans(a: string, b: string, c: string)
    requires LexLe(a, b) && LexLe(b, c)
    ensures LexLe(a, c)
    decreases |a|
  {
    if a != [] && a[0] == b[0] && b[0] == c[0] {
      LexTrans(a[1..], b[1..], c[1..]);
    }
  }

  /** Lexicographic order is a total preorder. */
  lemma LexPreorder()
    ensures TotalPreorder(LexLe)
  {
    forall a, b ensures LexLe(a, b) || LexLe(b, a) {
      LexTotal(a, b);
    }
    forall a, b, c | LexLe(a, b) && LexLe(b, c) ensures LexLe(a, c) {
      LexTrans(a, b, c);
    }
  }
}
