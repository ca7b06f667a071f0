/**
 * The `Array.prototype.sort` the dashboard uses on copies of its lists: a
 * stable sort by a comparator, modelled as insertion sort by a total
 * preorder `le` ("a may stand before b").
 */
module Sorting {

  ghost predicate Total<T(!new)>(le: (T, T) -> bool) {
    forall a, b :: le(a, b) || le(b, a)
  }

  ghost predicate Transitive<T(!new)>(le: (T, T) -> bool) {
    forall a, b, c :: le(a, b) && le(b, c) ==> le(a, c)
  }

  ghost predicate TotalPreorder<T(!new)>(le: (T, T) -> bool) {
    Total(le) && Transitive(le)
  }

  /** Every element may stand before every later one. */
  ghost predicate SortedBy<T>(s: seq<T>, le: (T, T) -> bool) {
    forall i, j :: 0 <= i < j < |s| ==> le(s[i], s[j])
  }

  /** Puts `x` in front of the first element it may stand before (so `x` stays ahead of its equals). */
  function Insert<T>(x: T, s: seq<T>, le: (T, T) -> bool): seq<T> {
    if s == [] then [x]
    else if le(x, s[0]) then [x] + s
    else [s[0]] + Insert(x, s[1..], le)
  }

  /** Every element of `s` may stand after `y`. */
  ghost predicate Below<T>(y: T, s: seq<T>, le: (T, T) -> bool) {
    forall k :: 0 <= k < |s| ==> le(y, s[k])
  }

  lemma {:induction false} InsertBelow<T>(y: T, x: T, s: seq<T>, le: (T, T) -> bool)
    requires le(y, x) && Below(y, s, le)
    ensures Below(y, Insert(x, s, le), le)
  {
    if s != [] && !le(x, s[0]) {
      InsertBelow(y, x, s[1..], le);
    }
  }

  lemma {:induction false} InsertCount<T>(x: T, s: seq<T>, le: (T, T) -> bool)
    ensures multiset(Insert(x, s, le)) == multiset(s) + multiset{x}
  {
    if s != [] && !le(x, s[0]) {
      InsertCount(x, s[1..], le);
      assert s == [s[0]] + s[1..];
    }
  }

  lemma {:induction false} InsertSorted<T(!new)>(x: T, s: seq<T>, le: (T, T) -> bool)
    requires TotalPreorder(le)
    requires SortedBy(s, le)
    ensures SortedBy(Insert(x, s, le), le)
  {
    if s == [] {
    } else if le(x, s[0]) {
      forall j | 0 <= j < |s|
        ensures le(x, s[j])
      {
        if j > 0 {
          assert le(s[0], s[j]);
        }
      }
    } else {
      assert le(s[0], x);
      InsertSorted(x, s[1..], le);
      InsertBelow(s[0], x, s[1..], le);
    }
  }

  /** The sorted copy of `s` (the input list itself is not reordered). */
  function SortBy<T(!new)>(s: seq<T>, le: (T, T) -> bool): (r: seq<T>)
    requires TotalPreorder(le)
    ensures SortedBy(r, le)
    ensures multiset(r) == multiset(s)
    ensures |r| == |s|
  {
    if s == [] then []
    else
      var t := SortBy(s[1..], le);
      InsertSorted(s[0], t, le);
      InsertCount(s[0], t, le);
      assert s == [s[0]] + s[1..];
      Insert(s[0], t, le)
  }

  /** Non-increasing in `key`. */
  ghost predicate NonIncreasing<T>(s: seq<T>, key: T -> real) {
    forall i, j :: 0 <= i < j < |s| ==> key(s[i]) >= key(s[j])
  }

  /** The preorder of the comparator `key(b) - key(a)`: `a` may stand before `b` when its key is no smaller. */
  function ByKeyDesc<T>(key: T -> real): (T, T) -> bool {
    (a: T, b: T) => key(a) >= key(b)
  }

  /** Sorting with a comparator `key(b) - key(a)`: largest key first. */
  function SortByKeyDesc<T(!new)>(s: seq<T>, key: T -> real): (r: seq<T>)
    ensures NonIncreasing(r, key)
    ensures multiset(r) == multiset(s)
    ensures |r| == |s|
  {
    var le := ByKeyDesc(key);
    assert TotalPreorder(le);
    SortBy(s, le)
  }

  // ---------------------------------------------------------------- stability

  /** The elements of `s` that `p` selects, in their order in `s`. */
  function Keep<T>(s: seq<T>, p: T -> bool): (r: seq<T>)
    ensures |r| <= |s|
  {
    if s == [] then [] else (if p(s[0]) then [s[0]] else []) + Keep(s[1..], p)
  }

  /** `p` selects elements that are all tied under `le`: each may stand before each other. */
  ghost predicate Tied<T(!new)>(p: T -> bool, le: (T, T) -> bool) {
    forall a, b :: p(a) && p(b) ==> le(a, b)
  }

  lemma {:induction false} KeepAppend<T>(u: seq<T>, v: seq<T>, p: T -> bool)
    ensures Keep(u + v, p) == Keep(u, p) + Keep(v, p)
  {
    if u == [] {
      assert u + v == v;
    } else {
      var w, h := u + v, if p(u[0]) then [u[0]] else [];
      assert w[0] == u[0] && w[1..] == u[1..] + v;
      assert Keep(w, p) == h + Keep(u[1..] + v, p);
      KeepAppend(u[1..], v, p);
      assert Keep(u, p) == h + Keep(u[1..], p);
    }
  }

  lemma {:induction false} KeepNone<T>(s: seq<T>, p: T -> bool)
    requires forall k :: 0 <= k < |s| ==> !p(s[k])
    ensures Keep(s, p) == []
  {
    if s != [] {
      KeepNone(s[1..], p);
    }
  }

  lemma {:induction false} KeepEvery<T>(s: seq<T>, p: T -> bool)
    requires forall k :: 0 <= k < |s| ==> p(s[k])
    ensures Keep(s, p) == s
  {
    if s != [] {
      KeepEvery(s[1..], p);
    }
  }

  /** `Keep` selects exactly the elements of `s` that pass `p`, and no more copies of any than `s` holds. */
  lemma {:induction false} KeepMembers<T>(s: seq<T>, p: T -> bool)
    ensures forall x :: x in Keep(s, p) <==> x in s && p(x)
    ensures multiset(Keep(s, p)) <= multiset(s)
  {
    if s != [] {
      KeepMembers(s[1..], p);
      assert s == [s[0]] + s[1..];
    }
  }

  /** `s` lists every tied selection of `t` in the order `t` has it: a stable rearrangement. */
  ghost predicate KeepsTies<T(!new)>(s: seq<T>, t: seq<T>, le: (T, T) -> bool) {
    forall p :: Tied(p, le) ==> Keep(s, p) == Keep(t, p)
  }

  /** `Insert` puts `x` ahead of the tied elements of `s`, which were later in the input. */
  lemma {:induction false} InsertKeep<T(!new)>(x: T, s: seq<T>, le: (T, T) -> bool, p: T -> bool)
    requires Tied(p, le)
    ensures Keep(Insert(x, s, le), p) == (if p(x) then [x] else []) + Keep(s, p)
  {
    if s == [] {
    } else if le(x, s[0]) {
      assert ([x] + s)[1..] == s;
    } else {
      InsertKeep(x, s[1..], le, p);
      assert !(p(x) && p(s[0]));
      assert Insert(x, s, le)[1..] == Insert(x, s[1..], le);
    }
  }

  /** `SortBy` is stable: tied elements keep their relative input order. */
  lemma {:induction false} SortByStable<T(!new)>(s: seq<T>, le: (T, T) -> bool, p: T -> bool)
    requires TotalPreorder(le) && Tied(p, le)
    ensures Keep(SortBy(s, le), p) == Keep(s, p)
  {
    if s != [] {
      SortByStable(s[1..], le, p);
      InsertKeep(s[0], SortBy(s[1..], le), le, p);
    }
  }

  /** Selects the elements whose key is `v`. */
  function HasKey<T>(key: T -> real, v: real): T -> bool {
    (x: T) => key(x) == v
  }

  /** `SortByKeyDesc` is stable: the elements sharing any one key keep their relative input order. */
  lemma SortByKeyDescStable<T(!new)>(s: seq<T>, key: T -> real, v: real)
    ensures Keep(SortByKeyDesc(s, key), HasKey(key, v)) == Keep(s, HasKey(key, v))
  {
    assert TotalPreorder(ByKeyDesc(key)) && Tied(HasKey(key, v), ByKeyDesc(key));
    SortByStable(s, ByKeyDesc(key), HasKey(key, v));
  }

  /** `SortByKeyDescStable` for every key at once. */
  lemma SortByKeyDescStableAll<T(!new)>(s: seq<T>, key: T -> real)
    ensures forall v :: Keep(SortByKeyDesc(s, key), HasKey(key, v)) == Keep(s, HasKey(key, v))
  {
    forall v ensures Keep(SortByKeyDesc(s, key), HasKey(key, v)) == Keep(s, HasKey(key, v)) {
      SortByKeyDescStable(s, key, v);
    }
  }

  /** The largest key of a non-empty sequence sorted by `SortByKeyDesc` sits at its head. */
  lemma HeadIsMax<T(!new)>(s: seq<T>, key: T -> real, x: T)
    requires x in s
    ensures |SortByKeyDesc(s, key)| > 0
    ensures key(SortByKeyDesc(s, key)[0]) >= key(x)
  {
    var r := SortByKeyDesc(s, key);
    assert x in multiset(s);
    assert x in multiset(r);
    var k :| 0 <= k < |r| && r[k] == x;
    if k > 0 {
      assert key(r[0]) >= key(r[k]);
    }
  }

  ghost predicate Antisymmetric<T(!new)>(le: (T, T) -> bool) {
    forall a, b :: le(a, b) && le(b, a) ==> a == b
  }

  /**
   * `a.sort(compare)`: sorts the array in place (insertion sort, which is
   * stable like the engine's sort), leaving a sorted permutation in which
   * tied elements keep their relative order.
   */
  method SortInPlace<T(!new)>(a: array<T>, le: (T, T) -> bool)
    requires TotalPreorder(le)
    modifies a
    ensures SortedBy(a[..], le)
    ensures multiset(a[..]) == multiset(old(a[..]))
    ensures KeepsTies(a[..], old(a[..]), le)
  {
    var i := 0;
    while i < a.Length
      invariant 0 <= i <= a.Length
      invariant SortedBy(a[..i], le)
      invariant multiset(a[..]) == multiset(old(a[..]))
      invariant KeepsTies(a[..], old(a[..]), le)
    {
      ghost var before := a[..];
      SinkInto(a, i, le);
      KeepsTiesTransitive(a[..], before, old(a[..]), le);
      i := i + 1;
    }
    assert a[..] == a[..a.Length];
  }

  /** One pass of the insertion sort: moves `a[i]` left past the elements it may not follow. */
  method SinkInto<T(!new)>(a: array<T>, i: nat, le: (T, T) -> bool)
    requires TotalPreorder(le)
    requires i < a.Length && SortedBy(a[..i], le)
    modifies a
    ensures SortedBy(a[..i + 1], le)
    ensures multiset(a[..]) == multiset(old(a[..]))
    ensures KeepsTies(a[..], old(a[..]), le)
  {
    ghost var pre := a[..];
    assert pre[..i] == a[..i];
    var j := i;
    while j > 0 && !le(a[j - 1], a[j])
      invariant 0 <= j <= i
      invariant forall k :: 0 <= k < j ==> a[k] == pre[k]
      invariant a[j] == pre[i]
      invariant forall k :: j < k <= i ==> a[k] == pre[k - 1]
      invariant forall k :: i < k < a.Length ==> a[k] == pre[k]
      invariant forall k :: j <= k < i ==> !le(pre[k], pre[i])
    {
      a[j - 1], a[j] := a[j], a[j - 1];
      j := j - 1;
    }
    AfterPass(a[..], pre, j, i, le);
  }

  /** Where the pass stops, the array is `pre` with `pre[i]` moved back to `j`: sorted up to `i`, a permutation, and stable. */
  lemma AfterPass<T(!new)>(s: seq<T>, pre: seq<T>, j: nat, i: nat, le: (T, T) -> bool)
    requires TotalPreorder(le)
    requires j <= i < |pre| == |s| && SortedBy(pre[..i], le)
    requires forall k :: 0 <= k < j ==> s[k] == pre[k]
    requires s[j] == pre[i]
    requires forall k :: j < k <= i ==> s[k] == pre[k - 1]
    requires forall k :: i < k < |s| ==> s[k] == pre[k]
    requires forall k :: j <= k < i ==> !le(pre[k], pre[i])
    requires j == 0 || le(pre[j - 1], pre[i])
    ensures SortedBy(s[..i + 1], le)
    ensures multiset(s) == multiset(pre)
    ensures KeepsTies(s, pre, le)
  {
    Moved(s, pre, j, i);
    MovedSorted(pre, j, i, le);
    MovedMultiset(pre, j, i);
    MovedKeepsTies(pre, j, i, le);
  }

  /** A sequence that holds `pre[i]` at `j`, `pre[j..i]` after it and `pre` elsewhere. */
  lemma Moved<T>(s: seq<T>, pre: seq<T>, j: nat, i: nat)
    requires j <= i < |pre| == |s|
    requires forall k :: 0 <= k < j ==> s[k] == pre[k]
    requires s[j] == pre[i]
    requires forall k :: j < k <= i ==> s[k] == pre[k - 1]
    requires forall k :: i < k < |s| ==> s[k] == pre[k]
    ensures s == pre[..j] + [pre[i]] + pre[j..i] + pre[i + 1..]
    ensures s[..i + 1] == pre[..j] + [pre[i]] + pre[j..i]
  {
  }

  /** Moving `pre[i]` back to `j` keeps every element. */
  lemma MovedMultiset<T>(pre: seq<T>, j: nat, i: nat)
    requires j <= i < |pre|
    ensures multiset(pre[..j] + [pre[i]] + pre[j..i] + pre[i + 1..]) == multiset(pre)
  {
    Split3(pre, j, i);
  }

  /**
   * Where the pass stops, `pre[i]` may follow the element before it and may
   * not follow the ones it passed, so the first `i + 1` elements are sorted.
   */
  lemma MovedSorted<T(!new)>(pre: seq<T>, j: nat, i: nat, le: (T, T) -> bool)
    requires TotalPreorder(le)
    requires j <= i < |pre| && SortedBy(pre[..i], le)
    requires forall k :: j <= k < i ==> !le(pre[k], pre[i])
    requires j == 0 || le(pre[j - 1], pre[i])
    ensures SortedBy(pre[..j] + [pre[i]] + pre[j..i], le)
  {
    var s := pre[..j] + [pre[i]] + pre[j..i];
    forall p, q | 0 <= p < q < |s|
      ensures le(s[p], s[q])
    {
      if q < j {
        assert le(pre[..i][p], pre[..i][q]);
      } else if q == j {
        if p < j - 1 {
          assert le(pre[..i][p], pre[..i][j - 1]);
        }
      } else if p < j {
        assert le(pre[..i][p], pre[..i][q - 1]);
      } else if p == j {
        assert !le(pre[q - 1], pre[i]);
      } else {
        assert le(pre[..i][p - 1], pre[..i][q - 1]);
      }
    }
  }

  lemma KeepsTiesTransitive<T(!new)>(s: seq<T>, t: seq<T>, u: seq<T>, le: (T, T) -> bool)
    requires KeepsTies(s, t, le) && KeepsTies(t, u, le)
    ensures KeepsTies(s, u, le)
  {
  }

  /** Every tied selection survives the move of one pass. */
  lemma MovedKeepsTies<T(!new)>(pre: seq<T>, j: nat, i: nat, le: (T, T) -> bool)
    requires j <= i < |pre|
    requires forall k :: j <= k < i ==> !le(pre[k], pre[i])
    ensures KeepsTies(pre[..j] + [pre[i]] + pre[j..i] + pre[i + 1..], pre, le)
  {
    forall p | Tied(p, le)
      ensures Keep(pre[..j] + [pre[i]] + pre[j..i] + pre[i + 1..], p) == Keep(pre, p)
    {
      MoveKeep(pre, j, i, le, p);
    }
  }

  /** Moving `pre[i]` back to position `j`, past elements it may not follow, keeps every tied selection in order. */
  lemma MoveKeep<T(!new)>(pre: seq<T>, j: nat, i: nat, le: (T, T) -> bool, p: T -> bool)
    requires j <= i < |pre| && Tied(p, le)
    requires forall k :: j <= k < i ==> !le(pre[k], pre[i])
    ensures Keep(pre[..j] + [pre[i]] + pre[j..i] + pre[i + 1..], p) == Keep(pre, p)
  {
    var front, x, m, back := pre[..j], pre[i], pre[j..i], pre[i + 1..];
    Split3(pre, j, i);
    Regroup(front, x, m, back);
    PassKeep(x, m, le, p);
    KeepAround(front, [x] + m, m + [x], back, p);
  }

  lemma Split3<T>(s: seq<T>, j: nat, i: nat)
    requires j <= i < |s|
    ensures s == s[..j] + (s[j..i] + [s[i]]) + s[i + 1..]
  {
    assert s[..i] == s[..j] + s[j..i];
    assert s == s[..i] + [s[i]] + s[i + 1..];
  }

  lemma Regroup<T>(front: seq<T>, x: T, m: seq<T>, back: seq<T>)
    ensures front + [x] + m + back == front + ([x] + m) + back
  {
  }

  /** Equal selections from a middle part give equal selections once the same parts surround it. */
  lemma KeepAround<T>(front: seq<T>, mid: seq<T>, mid': seq<T>, back: seq<T>, p: T -> bool)
    requires Keep(mid, p) == Keep(mid', p)
    ensures Keep(front + mid + back, p) == Keep(front + mid' + back, p)
  {
    KeepAppend(front + mid, back, p);
    KeepAppend(front, mid, p);
    KeepAppend(front + mid', back, p);
    KeepAppend(front, mid', p);
  }

  /** `x` may pass elements it may not follow without changing any tied selection. */
  lemma PassKeep<T(!new)>(x: T, m: seq<T>, le: (T, T) -> bool, p: T -> bool)
    requires Tied(p, le)
    requires forall k :: 0 <= k < |m| ==> !le(m[k], x)
    ensures Keep([x] + m, p) == Keep(m + [x], p)
  {
    KeepAppend([x], m, p);
    KeepAppend(m, [x], p);
    assert Keep([x], p) == (if p(x) then [x] else []) by {
      assert [x][1..] == [];
    }
    if p(x) {
      forall k | 0 <= k < |m|
        ensures !p(m[k])
      {
        assert !le(m[k], x);
      }
      KeepNone(m, p);
    }
  }

  /** The head of a sorted sequence may stand before each of its elements (reflexivity covers the head itself). */
  lemma HeadFirst<T(!new)>(s: seq<T>, x: T, le: (T, T) -> bool)
    requires TotalPreorder(le) && SortedBy(s, le)
    requires x in multiset(s)
    ensures le(s[0], x)
  {
    var i :| 0 <= i < |s| && s[i] == x;
    if i > 0 {
      assert le(s[0], s[i]);
    } else {
      assert le(x, x) || le(x, x);
    }
  }

  /** Dropping equal heads leaves equal multisets. */
  lemma TailMultisets<T>(s: seq<T>, t: seq<T>)
    requires s != [] && t != [] && s[0] == t[0]
    requires multiset(s) == multiset(t)
    ensures multiset(s[1..]) == multiset(t[1..])
  {
    assert s == [s[0]] + s[1..] && t == [t[0]] + t[1..];
    assert multiset(s[1..]) == multiset(s) - multiset{s[0]};
    assert multiset(t[1..]) == multiset(t) - multiset{t[0]};
  }

  /** Under an antisymmetric total order a multiset has one sorted arrangement. */
  lemma {:induction false} SortedUnique<T(!new)>(s: seq<T>, t: seq<T>, le: (T, T) -> bool)
    requires TotalPreorder(le) && Antisymmetric(le)
    requires SortedBy(s, le) && SortedBy(t, le)
    requires multiset(s) == multiset(t)
    ensures s == t
    decreases |s|
  {
    assert |t| == |multiset(t)| == |s|;
    if s != [] {
      HeadFirst(t, s[0], le);
      HeadFirst(s, t[0], le);
      TailMultisets(s, t);
      SortedUnique(s[1..], t[1..], le);
      assert s == [s[0]] + s[1..] && t == [t[0]] + t[1..];
    }
  }
}
