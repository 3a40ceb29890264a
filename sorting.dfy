/**
 * A stable sort by a total preorder. It models the two sorts the core relies
 * on without implementing them itself: `Array.prototype.sort` with a
 * comparator (stable since ECMAScript 2019) and SQL `ORDER BY`.
 */
module Sorting {

  /** `le` compares any two values and is transitive. */
  ghost predicate TotalPreorder<T(!new)>(le: (T, T) -> bool) {
    && (forall a, b :: le(a, b) || le(b, a))
    && (forall a, b, c :: le(a, b) && le(b, c) ==> le(a, c))
  }

  predicate SortedBy<T>(le: (T, T) -> bool, s: seq<T>) {
    forall i, j :: 0 <= i < j < |s| ==> le(s[i], s[j])
  }

  /** The elements of `s` that `le` cannot tell apart from `x`, in their order in `s`. */
  function Equivalents<T>(le: (T, T) -> bool, x: T, s: seq<T>): seq<T> {
    if s == [] then []
    else (if le(s[0], x) && le(x, s[0]) then [s[0]] else []) + Equivalents(le, x, s[1..])
  }

  /** Puts `x` before the first element it is not after. */
  function Insert<T>(le: (T, T) -> bool, x: T, s: seq<T>): (r: seq<T>)
    ensures multiset(r) == multiset(s) + multiset{x}
  {
    if s == [] then [x]
    else if le(x, s[0]) then [x] + s
    else
      assert s == [s[0]] + s[1..];
      [s[0]] + Insert(le, x, s[1..])
  }

  /** Stable insertion sort: a permutation of `s`. */
  function SortBy<T>(le: (T, T) -> bool, s: seq<T>): (r: seq<T>)
    ensures multiset(r) == multiset(s)
    ensures |r| == |s|
  {
    if s == [] then []
    else
      assert s == [s[0]] + s[1..];
      var r := Insert(le, s[0], SortBy(le, s[1..]));
      assert |r| == |multiset(r)|;
      r
  }

  /** Sorting loses no element. */
  lemma SortByMember<T>(le: (T, T) -> bool, s: seq<T>, x: T)
    requires x in s
    ensures x in SortBy(le, s)
  {
    assert x in multiset(s);
  }

  lemma {:induction false} InsertSorted<T(!new)>(le: (T, T) -> bool, x: T, s: seq<T>)
    requires TotalPreorder(le) && SortedBy(le, s)
    ensures SortedBy(le, Insert(le, x, s))
  {
    if s != [] && !le(x, s[0]) {
      var tail := Insert(le, x, s[1..]);
      InsertSorted(le, x, s[1..]);
      forall z | z in tail ensures le(s[0], z) {
        assert z in multiset(tail);
        if z != x {
          assert z in multiset(s[1..]);
          var k :| 0 <= k < |s[1..]| && s[1..][k] == z;
          assert s[k + 1] == z;
        }
      }
      var r := [s[0]] + tail;
      forall i, j | 0 <= i < j < |r| ensures le(r[i], r[j]) {
        if i == 0 {
          assert r[j] == tail[j - 1];
          assert r[j] in tail;
        } else {
          assert r[i] == tail[i - 1] && r[j] == tail[j - 1];
        }
      }
    }
  }

  /** The result of `SortBy` is ordered by `le`. */
  lemma {:induction false} SortBySorted<T(!new)>(le: (T, T) -> bool, s: seq<T>)
    requires TotalPreorder(le)
    ensures SortedBy(le, SortBy(le, s))
  {
    if s != [] {
      SortBySorted(le, s[1..]);
      InsertSorted(le, s[0], SortBy(le, s[1..]));
    }
  }

  lemma {:induction false} InsertEquivalents<T(!new)>(le: (T, T) -> bool, x: T, y: T, s: seq<T>)
    requires TotalPreorder(le)
    ensures Equivalents(le, x, Insert(le, y, s))
         == (if le(y, x) && le(x, y) then [y] else []) + Equivalents(le, x, s)
  {
    var ey := if le(y, x) && le(x, y) then [y] else [];
    if s == [] {
      assert Insert(le, y, s) == [y];
      assert [y][1..] == [];
      assert Equivalents(le, x, [y]) == ey + Equivalents(le, x, []);
    } else if le(y, s[0]) {
      assert Insert(le, y, s) == [y] + s;
      assert ([y] + s)[1..] == s;
      assert Equivalents(le, x, [y] + s) == ey + Equivalents(le, x, s);
    } else {
      InsertEquivalents(le, x, y, s[1..]);
      NotBothEquivalent(le, x, y, s[0]);
      InsertEquivalentsPast(le, x, y, s);
    }
  }

  /** Two values on either side of a strict gap are not both equivalent to `x`. */
  lemma NotBothEquivalent<T(!new)>(le: (T, T) -> bool, x: T, y: T, z: T)
    requires TotalPreorder(le) && !le(y, z)
    ensures !(le(y, x) && le(x, y) && le(z, x) && le(x, z))
  {
  }

  /** The step of `InsertEquivalents` where `y` goes past the head of `s`. */
  lemma InsertEquivalentsPast<T>(le: (T, T) -> bool, x: T, y: T, s: seq<T>)
    requires s != [] && !le(y, s[0])
    requires !(le(y, x) && le(x, y) && le(s[0], x) && le(x, s[0]))
    requires Equivalents(le, x, Insert(le, y, s[1..]))
          == (if le(y, x) && le(x, y) then [y] else []) + Equivalents(le, x, s[1..])
    ensures Equivalents(le, x, Insert(le, y, s))
         == (if le(y, x) && le(x, y) then [y] else []) + Equivalents(le, x, s)
  {
    var ey := if le(y, x) && le(x, y) then [y] else [];
    var e0 := if le(s[0], x) && le(x, s[0]) then [s[0]] else [];
    var e1 := Equivalents(le, x, s[1..]);
    var rest := Insert(le, y, s[1..]);
    assert Equivalents(le, x, Insert(le, y, s)) == e0 + (ey + e1) by {
      InsertPast(le, y, s);
      EquivalentsCons(le, x, s[0], rest);
    }
    assert Equivalents(le, x, s) == e0 + e1 by {
      assert s == [s[0]] + s[1..];
      EquivalentsCons(le, x, s[0], s[1..]);
    }
    ConcatPastEmpty(e0, ey, e1);
  }

  lemma InsertPast<T>(le: (T, T) -> bool, y: T, s: seq<T>)
    requires s != [] && !le(y, s[0])
    ensures Insert(le, y, s) == [s[0]] + Insert(le, y, s[1..])
  {
  }

  lemma ConcatPastEmpty<T>(a: seq<T>, b: seq<T>, c: seq<T>)
    requires a == [] || b == []
    ensures a + (b + c) == b + (a + c)
  {
    if a == [] {
      assert a + (b + c) == b + c;
    } else {
      assert b + (a + c) == a + c;
    }
  }

  lemma EquivalentsCons<T>(le: (T, T) -> bool, x: T, h: T, t: seq<T>)
    ensures Equivalents(le, x, [h] + t) == (if le(h, x) && le(x, h) then [h] else []) + Equivalents(le, x, t)
  {
    assert ([h] + t)[1..] == t;
  }

  /** Stability: elements that compare equal keep their relative order. */
  lemma {:induction false} SortByStable<T(!new)>(le: (T, T) -> bool, x: T, s: seq<T>)
    requires TotalPreorder(le)
    ensures Equivalents(le, x, SortBy(le, s)) == Equivalents(le, x, s)
  {
    if s != [] {
      SortByStable(le, x, s[1..]);
      InsertEquivalents(le, x, s[0], SortBy(le, s[1..]));
    }
  }

  /** Permuting a sequence keeps every element it maps to `key` unique. */
  lemma PermutationKeepsKeysDistinct<T, K>(key: T -> K, s: seq<T>, r: seq<T>)
    requires multiset(r) == multiset(s)
    requires forall i, j :: 0 <= i < j < |s| ==> key(s[i]) != key(s[j])
    ensures forall i, j :: 0 <= i < j < |r| ==> key(r[i]) != key(r[j])
  {
    forall i, j | 0 <= i < j < |r| ensures key(r[i]) != key(r[j]) {
      if r[i] == r[j] {
        CountAtLeastTwo(r, i, j);
        CountAtMostOne(key, s, r[i]);
        assert false;
      }
      assert r[i] in multiset(s) && r[j] in multiset(s);
      var a :| 0 <= a < |s| && s[a] == r[i];
      var b :| 0 <= b < |s| && s[b] == r[j];
      if a < b {
        assert key(s[a]) != key(s[b]);
      } else {
        assert key(s[b]) != key(s[a]);
      }
    }
  }

  lemma CountAtLeastTwo<T>(r: seq<T>, i: nat, j: nat)
    requires i < j < |r| && r[i] == r[j]
    ensures multiset(r)[r[i]] >= 2
  {
    assert r == r[..j] + [r[j]] + r[j + 1..];
    assert r[..j][i] == r[i];
  }

  lemma {:induction false} CountAtMostOne<T, K>(key: T -> K, s: seq<T>, x: T)
    requires forall i, j :: 0 <= i < j < |s| ==> key(s[i]) != key(s[j])
    ensures multiset(s)[x] <= 1
  {
    if s != [] {
      assert s == [s[0]] + s[1..];
      CountAtMostOne(key, s[1..], x);
      if s[0] == x {
        assert x !in s[1..] by {
          forall k | 0 <= k < |s| - 1 ensures s[1..][k] != x {
            assert key(s[0]) != key(s[k + 1]);
          }
        }
      }
    }
  }
}
