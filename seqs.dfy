/**
 * Order-preserving selection from a sequence: the shape shared by every loop
 * in the core that walks entries in order and pushes the ones it keeps
 * (`for ... of Object.entries(...) { if (...) continue; xs.push(...) }`) and by
 * `Array.prototype.filter`.
 */
module Seqs {
  import opened Options

  function Keep<B>(o: Option<B>): seq<B> {
    match o
    case Some(b) => [b]
    case None => []
  }

  /** The images of the elements `f` keeps, in order; defined from the end, as a loop builds it. */
  function FilterMap<A, B>(s: seq<A>, f: A -> Option<B>): (r: seq<B>)
    ensures |r| <= |s|
  {
    if s == [] then [] else FilterMap(s[..|s| - 1], f) + Keep(f(s[|s| - 1]))
  }

  /** Where each element of `FilterMap(s, f)` came from. */
  function FilterMapIndices<A, B>(s: seq<A>, f: A -> Option<B>): seq<nat> {
    if s == [] then []
    else FilterMapIndices(s[..|s| - 1], f) + (if f(s[|s| - 1]).Some? then [|s| - 1] else [])
  }

  /**
   * `r` is exactly what `f` makes of the elements of `s` it keeps, and in the
   * same order: `idx` lists the kept positions, strictly increasing, and
   * misses none of them.
   */
  ghost predicate Selects<A, B>(s: seq<A>, f: A -> Option<B>, r: seq<B>, idx: seq<nat>) {
    && |idx| == |r|
    && (forall k :: 0 <= k < |idx| ==> idx[k] < |s| && f(s[idx[k]]) == Some(r[k]))
    && (forall k, l :: 0 <= k < l < |idx| ==> idx[k] < idx[l])
    && (forall i :: 0 <= i < |s| && f(s[i]).Some? ==> i in idx)
  }

  lemma {:induction false} FilterMapSelects<A, B>(s: seq<A>, f: A -> Option<B>)
    ensures Selects(s, f, FilterMap(s, f), FilterMapIndices(s, f))
  {
    if s != [] {
      var n := |s| - 1;
      var prefix := s[..n];
      FilterMapSelects(prefix, f);
      var r0, idx0 := FilterMap(prefix, f), FilterMapIndices(prefix, f);
      var r, idx := FilterMap(s, f), FilterMapIndices(s, f);
      assert forall k :: 0 <= k < |idx0| ==> idx0[k] < n;
      forall k | 0 <= k < |idx| ensures idx[k] < |s| && f(s[idx[k]]) == Some(r[k]) {
        if k < |idx0| {
          assert idx[k] == idx0[k] && r[k] == r0[k];
          assert s[idx[k]] == prefix[idx0[k]];
        }
      }
      forall k, l | 0 <= k < l < |idx| ensures idx[k] < idx[l] {
        assert idx[k] == idx0[k];
        if l < |idx0| {
          assert idx[l] == idx0[l];
        }
      }
      forall i | 0 <= i < |s| && f(s[i]).Some? ensures i in idx {
        if i < n {
          assert prefix[i] == s[i];
          assert i in idx0;
        }
      }
    }
  }

  /** One more step of the loop that builds a selection. */
  lemma FilterMapAppend<A, B>(s: seq<A>, f: A -> Option<B>, i: nat)
    requires i < |s|
    ensures FilterMap(s[..i + 1], f) == FilterMap(s[..i], f) + Keep(f(s[i]))
  {
    assert s[..i + 1][..i] == s[..i];
  }

  /** Every selected element is the image of some element of `s`. */
  lemma FilterMapSource<A, B>(s: seq<A>, f: A -> Option<B>, k: nat)
    requires k < |FilterMap(s, f)|
    ensures exists i :: 0 <= i < |s| && f(s[i]) == Some(FilterMap(s, f)[k])
  {
    FilterMapSelects(s, f);
    var idx := FilterMapIndices(s, f);
    assert f(s[idx[k]]) == Some(FilterMap(s, f)[k]);
  }

  /** Every kept element of `s` shows up in the selection. */
  lemma FilterMapComplete<A, B>(s: seq<A>, f: A -> Option<B>, i: nat)
    requires i < |s| && f(s[i]).Some?
    ensures f(s[i]).value in FilterMap(s, f)
  {
    FilterMapSelects(s, f);
    var idx := FilterMapIndices(s, f);
    var k :| 0 <= k < |idx| && idx[k] == i;
    assert FilterMap(s, f)[k] == f(s[i]).value;
  }

  /** Selection keeps keys unique when each image carries the key of its source. */
  lemma FilterMapKeysDistinct<A, B, K>(s: seq<A>, f: A -> Option<B>, ka: A -> K, kb: B -> K)
    requires forall i, j :: 0 <= i < j < |s| ==> ka(s[i]) != ka(s[j])
    requires forall a :: f(a).Some? ==> kb(f(a).value) == ka(a)
    ensures forall k, l :: 0 <= k < l < |FilterMap(s, f)| ==> kb(FilterMap(s, f)[k]) != kb(FilterMap(s, f)[l])
  {
    FilterMapSelects(s, f);
    var r, idx := FilterMap(s, f), FilterMapIndices(s, f);
    forall k, l | 0 <= k < l < |r| ensures kb(r[k]) != kb(r[l]) {
      assert idx[k] < idx[l];
      assert kb(r[k]) == ka(s[idx[k]]) by { assert f(s[idx[k]]) == Some(r[k]); }
      assert kb(r[l]) == ka(s[idx[l]]) by { assert f(s[idx[l]]) == Some(r[l]); }
    }
  }

  /** Dropping the elements `f` rejects and keeping the rest unchanged. */
  function Filter<A(!new)>(s: seq<A>, p: A -> bool): (r: seq<A>)
    ensures |r| <= |s|
    ensures forall x :: x in r ==> x in s && p(x)
    ensures forall i :: 0 <= i < |s| && p(s[i]) ==> s[i] in r
    ensures (forall i :: 0 <= i < |s| ==> p(s[i])) ==> r == s
    ensures forall x :: p(x) ==> multiset(r)[x] == multiset(s)[x]
  {
    var f := (x: A) => if p(x) then Some(x) else None;
    var r := FilterMap(s, f);
    FilterMapKeepsAll(s, f);
    forall x | p(x) ensures multiset(r)[x] == multiset(s)[x] {
      FilterMapCount(s, p, x);
    }
    forall x | x in r ensures x in s && p(x) {
      var k :| 0 <= k < |r| && r[k] == x;
      FilterMapSource(s, f, k);
    }
    forall i | 0 <= i < |s| && p(s[i]) ensures s[i] in r {
      FilterMapComplete(s, f, i);
    }
    r
  }

  /** A selection that keeps the elements passing `p` keeps every copy of them. */
  lemma {:induction false} FilterMapCount<A>(s: seq<A>, p: A -> bool, y: A)
    requires p(y)
    ensures var f := (x: A) => if p(x) then Some(x) else None;
            multiset(FilterMap(s, f))[y] == multiset(s)[y]
  {
    var f := (x: A) => if p(x) then Some(x) else None;
    if s != [] {
      var n := |s| - 1;
      FilterMapCount(s[..n], p, y);
      FilterMapCountLast(s, f, y);
      CountLast(s, y);
      assert multiset(Keep(f(s[n])))[y] == if s[n] == y then 1 else 0;
    }
  }

  lemma FilterMapCountLast<A, B>(s: seq<A>, f: A -> Option<B>, y: B)
    requires s != []
    ensures multiset(FilterMap(s, f))[y] == multiset(FilterMap(s[..|s| - 1], f))[y] + multiset(Keep(f(s[|s| - 1])))[y]
  {
  }

  lemma CountLast<A>(s: seq<A>, y: A)
    requires s != []
    ensures multiset(s)[y] == multiset(s[..|s| - 1])[y] + if s[|s| - 1] == y then 1 else 0
  {
    assert s == s[..|s| - 1] + [s[|s| - 1]];
  }

  lemma {:induction false} FilterMapKeepsAll<A>(s: seq<A>, f: A -> Option<A>)
    ensures (forall i :: 0 <= i < |s| ==> f(s[i]) == Some(s[i])) ==> FilterMap(s, f) == s
  {
    if s != [] && forall i :: 0 <= i < |s| ==> f(s[i]) == Some(s[i]) {
      var n := |s| - 1;
      assert forall i :: 0 <= i < n ==> f(s[..n][i]) == Some(s[..n][i]) by {
        forall i | 0 <= i < n ensures f(s[..n][i]) == Some(s[..n][i]) { assert s[..n][i] == s[i]; }
      }
      FilterMapKeepsAll(s[..n], f);
      assert Keep(f(s[n])) == [s[n]];
      assert FilterMap(s, f) == s[..n] + [s[n]];
      assert s == s[..n] + [s[n]];
    }
  }

  /** `s.map(f)`. */
  function MapSeq<A, B>(s: seq<A>, f: A -> B): (r: seq<B>)
    ensures |r| == |s|
  {
    seq(|s|, i requires 0 <= i < |s| => f(s[i]))
  }

  /** The image of a member is a member of the image. */
  lemma MapSeqMember<A, B>(s: seq<A>, f: A -> B, x: A)
    requires x in s
    ensures f(x) in MapSeq(s, f)
  {
    var t :| 0 <= t < |s| && s[t] == x;
    assert MapSeq(s, f)[t] == f(x);
  }

  /** `s.flatMap(f)`; defined from the end, as a loop builds it. */
  function FlatMap<A, B>(s: seq<A>, f: A -> seq<B>): (r: seq<B>)
    ensures forall i :: 0 <= i < |s| ==> |f(s[i])| <= |r|
    ensures r == [] <==> forall i :: 0 <= i < |s| ==> f(s[i]) == []
  {
    if s == [] then []
    else
      var n := |s| - 1;
      assert forall i :: 0 <= i < n ==> s[..n][i] == s[i];
      FlatMap(s[..n], f) + f(s[n])
  }

  /** What `FlatMap` yields comes from the image of some element, and every image is yielded. */
  lemma {:induction false} FlatMapMember<A, B>(s: seq<A>, f: A -> seq<B>, y: B)
    ensures y in FlatMap(s, f) <==> exists i :: 0 <= i < |s| && y in f(s[i])
  {
    if s != [] {
      var n := |s| - 1;
      FlatMapMember(s[..n], f, y);
      if exists i :: 0 <= i < |s| && y in f(s[i]) {
        var i :| 0 <= i < |s| && y in f(s[i]);
        if i < n { assert s[..n][i] == s[i]; }
      }
      if exists i :: 0 <= i < n && y in f(s[..n][i]) {
        var i :| 0 <= i < n && y in f(s[..n][i]);
        assert s[..n][i] == s[i];
      }
    }
  }

  /** The flat map of one element is its image. */
  lemma FlatMapSingleton<A, B>(s: seq<A>, f: A -> seq<B>)
    requires |s| == 1
    ensures FlatMap(s, f) == f(s[0])
  {
    assert s[..0] == [];
  }

  /** A flat map whose every image has at most one element is a selection. */
  lemma {:induction false} FlatMapKeep<A, B>(s: seq<A>, f: A -> seq<B>, g: A -> Option<B>)
    requires forall i :: 0 <= i < |s| ==> f(s[i]) == Keep(g(s[i]))
    ensures FlatMap(s, f) == FilterMap(s, g)
  {
    if s != [] {
      var n := |s| - 1;
      forall i | 0 <= i < n ensures f(s[..n][i]) == Keep(g(s[..n][i])) {
        assert s[..n][i] == s[i];
      }
      FlatMapKeep(s[..n], f, g);
      assert FlatMap(s, f) == FlatMap(s[..n], f) + f(s[n]);
      assert FilterMap(s, g) == FilterMap(s[..n], g) + Keep(g(s[n]));
    }
  }

  /** A selection of keyed elements in which a key is matched by a given element holds just that element. */
  lemma FilterSingleton<A(!new)>(s: seq<A>, p: A -> bool, k: nat)
    requires k < |s| && p(s[k])
    requires forall i :: 0 <= i < |s| && p(s[i]) ==> i == k
    ensures Filter(s, p) == [s[k]]
  {
    var f := (x: A) => if p(x) then Some(x) else None;
    FilterMapSelects(s, f);
    var r, idx := FilterMap(s, f), FilterMapIndices(s, f);
    assert k in idx;
    assert forall j :: 0 <= j < |idx| ==> idx[j] == k;
    IncreasingSpread(idx);
    assert idx[0] == k;
    assert r[0] == s[k];
  }

  /** A strictly increasing sequence of naturals spreads at least one per element. */
  lemma {:induction false} IncreasingSpread(xs: seq<nat>)
    requires |xs| > 0
    requires forall a, b :: 0 <= a < b < |xs| ==> xs[a] < xs[b]
    ensures xs[|xs| - 1] >= xs[0] + |xs| - 1
  {
    if |xs| > 1 {
      IncreasingSpread(xs[..|xs| - 1]);
      assert xs[|xs| - 2] < xs[|xs| - 1];
    }
  }

  /** Dropping elements keeps keys unique. */
  lemma FilterKeysDistinct<A(!new), K>(s: seq<A>, p: A -> bool, key: A -> K)
    requires forall i, j :: 0 <= i < j < |s| ==> key(s[i]) != key(s[j])
    ensures forall i, j :: 0 <= i < j < |Filter(s, p)| ==> key(Filter(s, p)[i]) != key(Filter(s, p)[j])
  {
    var f := (x: A) => if p(x) then Some(x) else None;
    FilterMapKeysDistinct(s, f, key, key);
    assert Filter(s, p) == FilterMap(s, f);
  }

  /** `r` is `s` with some elements dropped: `r[k]` is `s[idx[k]]`, positions strictly increasing. */
  ghost predicate SubsequenceAt<A>(s: seq<A>, r: seq<A>, idx: seq<nat>) {
    && |idx| == |r|
    && (forall k :: 0 <= k < |idx| ==> idx[k] < |s| && r[k] == s[idx[k]])
    && (forall k, l :: 0 <= k < l < |idx| ==> idx[k] < idx[l])
  }

  /** `filter` keeps the survivors in their original order. */
  lemma FilterInOrder<A(!new)>(s: seq<A>, p: A -> bool)
    ensures exists idx :: SubsequenceAt(s, Filter(s, p), idx)
  {
    var f := (x: A) => if p(x) then Some(x) else None;
    FilterMapSelects(s, f);
    var idx := FilterMapIndices(s, f);
    assert Filter(s, p) == FilterMap(s, f);
    assert SubsequenceAt(s, Filter(s, p), idx);
  }

  /** A non-empty sequence has a member: its head. */
  lemma HeadIsMember<A>(s: seq<A>)
    ensures s == [] || s[0] in s
  {
  }
}
