/**
 * `sorted(xs, key=..., reverse=True)`.  Python computes the key of every
 * element first and then sorts stably: elements with equal keys keep their
 * input order, also with `reverse=True`.  The model sorts pairs of an element
 * and its already computed key; a key is a number or a pair of numbers
 * compared lexicographically, as the code's tuple keys are.
 */
module Sorting {
  import opened Json
  import opened Python

  datatype Key = Key(major: real, minor: real)

  function IntKey(i: int): Key {
    Key(i as real, 0.0)
  }

  predicate AtLeast(a: Key, b: Key) {
    a.major > b.major || (a.major == b.major && a.minor >= b.minor)
  }

  predicate SortedDesc<T>(s: seq<(T, Key)>) {
    forall i, j :: 0 <= i < j < |s| ==> AtLeast(s[i].1, s[j].1)
  }

  /** Places `x` after every leading element whose key is at least its own. */
  function Insert<T>(x: (T, Key), s: seq<(T, Key)>): (r: seq<(T, Key)>)
    ensures |r| == |s| + 1
    ensures multiset(r) == multiset(s) + multiset{x}
  {
    if s == [] then [x]
    else if AtLeast(s[0].1, x.1) then
      assert s == [s[0]] + s[1..];
      [s[0]] + Insert(x, s[1..])
    else [x] + s
  }

  lemma {:induction false} InsertSorted<T>(x: (T, Key), s: seq<(T, Key)>)
    requires SortedDesc(s)
    ensures SortedDesc(Insert(x, s))
  {
    if s != [] && AtLeast(s[0].1, x.1) {
      InsertSorted(x, s[1..]);
      var r := Insert(x, s[1..]);
      forall e | e in r ensures AtLeast(s[0].1, e.1) {
        assert e in multiset(r);
        if e != x {
          assert e in s[1..];
        }
      }
      assert Insert(x, s) == [s[0]] + r;
    }
  }

  /** `sorted(s, key=..., reverse=True)` over pairs of element and key. */
  function SortDesc<T>(s: seq<(T, Key)>): (r: seq<(T, Key)>)
    ensures |r| == |s|
    ensures multiset(r) == multiset(s)
    ensures SortedDesc(r)
  {
    if s == [] then []
    else
      var p := s[..|s| - 1];
      assert s == p + [s[|s| - 1]];
      InsertSorted(s[|s| - 1], SortDesc(p));
      Insert(s[|s| - 1], SortDesc(p))
  }

  lemma {:induction false} InsertLast<T>(x: (T, Key), s: seq<(T, Key)>)
    requires forall i :: 0 <= i < |s| ==> AtLeast(s[i].1, x.1)
    ensures Insert(x, s) == s + [x]
  {
    if s != [] {
      InsertLast(x, s[1..]);
    }
  }

  /**
   * The sort is stable: input that is already in order, ties included,
   * comes out unchanged.
   */
  lemma {:induction false} SortDescOfSorted<T>(s: seq<(T, Key)>)
    requires SortedDesc(s)
    ensures SortDesc(s) == s
  {
    if s != [] {
      var p := s[..|s| - 1];
      SortDescOfSorted(p);
      InsertLast(s[|s| - 1], p);
      assert p + [s[|s| - 1]] == s;
    }
  }

  /** The elements of a list of pairs. */
  function Firsts<T, K>(s: seq<(T, K)>): (r: seq<T>)
    ensures |r| == |s|
    ensures forall i :: 0 <= i < |s| ==> r[i] == s[i].0
  {
    if s == [] then [] else [s[0].0] + Firsts(s[1..])
  }

  /** The key of every element, computed in order before sorting; the first key that raises ends it. */
  function KeyAll<T>(key: T -> Result<Key>, xs: seq<T>): (r: Result<seq<(T, Key)>>)
    ensures r.Ok? <==> forall i :: 0 <= i < |xs| ==> key(xs[i]).Ok?
    ensures r.Ok? ==> |r.value| == |xs| && forall i :: 0 <= i < |xs| ==> r.value[i] == (xs[i], key(xs[i]).value)
    decreases |xs|
  {
    if xs == [] then Ok([])
    else
      match KeyAll(key, xs[..|xs| - 1])
      case Raise(e) => Raise(e)
      case Ok(prior) =>
        match key(xs[|xs| - 1])
        case Raise(e) => Raise(e)
        case Ok(k) => Ok(prior + [(xs[|xs| - 1], k)])
  }

  /** After sorting, every pair is still an input element with its own key. */
  lemma {:induction false} SortedKeys<T>(key: T -> Result<Key>, xs: seq<T>, k: seq<(T, Key)>)
    requires KeyAll(key, xs) == Ok(k)
    ensures forall i :: 0 <= i < |SortDesc(k)| ==> SortDesc(k)[i].0 in xs && key(SortDesc(k)[i].0) == Ok(SortDesc(k)[i].1)
  {
    var s := SortDesc(k);
    forall i | 0 <= i < |s| ensures s[i].0 in xs && key(s[i].0) == Ok(s[i].1) {
      assert s[i] in multiset(k);
      var j :| 0 <= j < |k| && k[j] == s[i];
    }
  }

  lemma {:induction false} FirstsAppend<T, K>(a: seq<(T, K)>, b: seq<(T, K)>)
    ensures Firsts(a + b) == Firsts(a) + Firsts(b)
  {
  }

  lemma {:induction false} FirstsMultiset<T, K>(a: seq<(T, K)>, b: seq<(T, K)>)
    ensures multiset(Firsts(a + b)) == multiset(Firsts(a)) + multiset(Firsts(b))
  {
    FirstsAppend(a, b);
  }

  lemma {:induction false} UnionSwap<T>(a: multiset<T>, b: multiset<T>, x: multiset<T>)
    ensures x + (a + b) == a + x + b
  {
  }

  /** Sorting pairs permutes their elements. */
  lemma {:induction false} FirstsPerm<T, K>(s: seq<(T, K)>, t: seq<(T, K)>)
    requires multiset(s) == multiset(t)
    ensures multiset(Firsts(s)) == multiset(Firsts(t))
    decreases |s|
  {
    if s == [] {
      assert |t| == |multiset(t)| == 0;
    } else {
      var x := s[0];
      assert x in multiset(t);
      var k :| 0 <= k < |t| && t[k] == x;
      var a, b := t[..k], t[k + 1..];
      assert t == a + [x] + b;
      assert s == [x] + s[1..];
      assert multiset(t) == multiset(a) + multiset{x} + multiset(b);
      assert multiset(s) == multiset{x} + multiset(s[1..]);
      assert multiset(a + b) == multiset(a) + multiset(b);
      assert multiset(s[1..]) == multiset(s) - multiset{x} == multiset(t) - multiset{x};
      FirstsPerm(s[1..], a + b);
      FirstsMultiset(a + [x], b);
      FirstsMultiset(a, [x]);
      FirstsMultiset(a, b);
      FirstsMultiset([x], s[1..]);
      var fa, fb, fx, fr := multiset(Firsts(a)), multiset(Firsts(b)), multiset(Firsts([x])), multiset(Firsts(s[1..]));
      assert multiset(Firsts(t)) == fa + fx + fb;
      assert fr == fa + fb;
      assert multiset(Firsts(s)) == fx + fr;
      UnionSwap(fa, fb, fx);
    }
  }

  /** The first `n` of a sorted list: none of the others has a larger key. */
  lemma {:induction false} TopSplit<T>(s: seq<(T, Key)>, n: int)
    requires SortedDesc(s)
    ensures forall i, j :: 0 <= i < |Take(s, n)| <= j < |s| ==> AtLeast(s[i].1, s[j].1)
    ensures multiset(Take(s, n)) + multiset(s[|Take(s, n)|..]) == multiset(s)
  {
    assert s == Take(s, n) + s[|Take(s, n)|..];
  }

  /** `sorted(xs, key=key, reverse=True)`: a permutation of `xs`, largest key first. */
  lemma {:induction false} SortedBy<T>(key: T -> Result<Key>, xs: seq<T>, k: seq<(T, Key)>, r: seq<T>)
    requires KeyAll(key, xs) == Ok(k) && r == Firsts(SortDesc(k))
    ensures multiset(r) == multiset(xs)
    ensures forall i :: 0 <= i < |r| ==> key(r[i]).Ok?
    ensures forall i, j :: 0 <= i < j < |r| ==> AtLeast(key(r[i]).value, key(r[j]).value)
  {
    var s := SortDesc(k);
    assert Firsts(k) == xs;
    FirstsPerm(s, k);
    SortedKeys(key, xs, k);
    forall i | 0 <= i < |r| ensures key(r[i]) == Ok(s[i].1) {
      assert r[i] == s[i].0;
    }
    forall i, j | 0 <= i < j < |r| ensures AtLeast(key(r[i]).value, key(r[j]).value) {
      assert AtLeast(s[i].1, s[j].1);
    }
  }

  /** Every element of `r` and of `rest` has a key, and none in `rest` has a larger key than one in `r`. */
  predicate Outranks<T>(key: T -> Result<Key>, r: seq<T>, rest: seq<T>) {
    forall i, j :: 0 <= i < |r| && 0 <= j < |rest| ==>
      key(r[i]).Ok? && key(rest[j]).Ok? && AtLeast(key(r[i]).value, key(rest[j]).value)
  }

  /** A list in key order, largest first, cut in two: no element after the cut outranks one before it. */
  lemma {:induction false} CutOrdered<T>(key: T -> Result<Key>, all: seq<T>, r: seq<T>, rest: seq<T>)
    requires |r| <= |all| && r == all[..|r|] && rest == all[|r|..]
    requires forall i :: 0 <= i < |all| ==> key(all[i]).Ok?
    requires forall i, j :: 0 <= i < j < |all| ==> AtLeast(key(all[i]).value, key(all[j]).value)
    ensures Outranks(key, r, rest)
  {
    forall i, j | 0 <= i < |r| && 0 <= j < |rest|
      ensures key(r[i]).Ok? && key(rest[j]).Ok? && AtLeast(key(r[i]).value, key(rest[j]).value)
    {
      assert r[i] == all[i] && rest[j] == all[|r| + j];
    }
  }

  /** The two halves of a cut make up the whole. */
  lemma {:induction false} CutParts<T>(all: seq<T>, m: nat)
    requires m <= |all|
    ensures multiset(all[..m]) + multiset(all[m..]) == multiset(all)
  {
    assert all == all[..m] + all[m..];
  }

  /**
   * `sorted(xs, key=key, reverse=True)[:n]`: what is kept and what is cut
   * make up `xs`, and no cut element has a larger key than a kept one.
   */
  lemma {:induction false} SortedTop<T>(key: T -> Result<Key>, xs: seq<T>, k: seq<(T, Key)>, n: int, r: seq<T>)
    returns (rest: seq<T>)
    requires KeyAll(key, xs) == Ok(k) && r == Take(Firsts(SortDesc(k)), n)
    ensures multiset(r) + multiset(rest) == multiset(xs)
    ensures Outranks(key, r, rest)
    ensures n >= 0 && |r| < n ==> rest == []
  {
    var all := Firsts(SortDesc(k));
    SortedBy(key, xs, k, all);
    rest := TakeTop(key, xs, all, n, r);
  }

  /** The first `n` of a permutation of `xs` in key order, largest first, and the others. */
  lemma {:induction false} TakeTop<T>(key: T -> Result<Key>, xs: seq<T>, all: seq<T>, n: int, r: seq<T>)
    returns (rest: seq<T>)
    requires multiset(all) == multiset(xs) && r == Take(all, n)
    requires forall i :: 0 <= i < |all| ==> key(all[i]).Ok?
    requires forall i, j :: 0 <= i < j < |all| ==> AtLeast(key(all[i]).value, key(all[j]).value)
    ensures multiset(r) + multiset(rest) == multiset(xs)
    ensures Outranks(key, r, rest)
    ensures n >= 0 && |r| < n ==> rest == []
  {
    var m := |r|;
    rest := all[m..];
    CutParts(all, m);
    CutOrdered(key, all, r, rest);
    if n >= 0 && m < n {
      assert m == |all|;
    }
  }
  // ------------------------------------------------ str keys, by code point

  /**
   * Python's `a < b` on two str values: the first differing code point
   * decides, and a proper prefix comes first.
   */
  predicate StrBelow(a: string, b: string)
    decreases |a|
  {
    if a == [] then b != []
    else if b == [] then false
    else if a[0] != b[0] then a[0] < b[0]
    else StrBelow(a[1..], b[1..])
  }

  lemma {:induction false} StrBelowAsym(a: string, b: string)
    requires StrBelow(a, b)
    ensures !StrBelow(b, a)
    decreases |a|
  {
    if a != [] && b != [] && a[0] == b[0] {
      StrBelowAsym(a[1..], b[1..]);
    }
  }

  lemma {:induction false} StrBelowTrans(a: string, b: string, c: string)
    requires StrBelow(a, b) && StrBelow(b, c)
    ensures StrBelow(a, c)
    decreases |a|
  {
    if a != [] && a[0] == b[0] && b[0] == c[0] {
      StrBelowTrans(a[1..], b[1..], c[1..]);
    }
  }

  /** Two different str values are ordered one way or the other. */
  lemma {:induction false} StrBelowTotal(a: string, b: string)
    requires a != b
    ensures StrBelow(a, b) || StrBelow(b, a)
    decreases |a|
  {
    if a != [] && b != [] && a[0] == b[0] {
      assert a == [a[0]] + a[1..] && b == [b[0]] + b[1..];
      StrBelowTotal(a[1..], b[1..]);
    }
  }

  predicate StrSortedDesc<T>(s: seq<(T, string)>) {
    forall i, j :: 0 <= i < j < |s| ==> !StrBelow(s[i].1, s[j].1)
  }

  /** Places `x` after every leading element whose key is not below its own. */
  function StrInsert<T>(x: (T, string), s: seq<(T, string)>): (r: seq<(T, string)>)
    ensures |r| == |s| + 1
    ensures multiset(r) == multiset(s) + multiset{x}
  {
    if s == [] then [x]
    else if !StrBelow(s[0].1, x.1) then
      assert s == [s[0]] + s[1..];
      [s[0]] + StrInsert(x, s[1..])
    else [x] + s
  }

  lemma {:induction false} StrInsertSorted<T>(x: (T, string), s: seq<(T, string)>)
    requires StrSortedDesc(s)
    ensures StrSortedDesc(StrInsert(x, s))
  {
    if s != [] {
      if !StrBelow(s[0].1, x.1) {
        StrInsertSorted(x, s[1..]);
        var r := StrInsert(x, s[1..]);
        forall e | e in r ensures !StrBelow(s[0].1, e.1) {
          assert e in multiset(r);
          if e != x {
            assert e in s[1..];
          }
        }
        assert StrInsert(x, s) == [s[0]] + r;
      } else {
        forall k | 0 <= k < |s| ensures !StrBelow(x.1, s[k].1) {
          StrBelowAsym(s[0].1, x.1);
          if k > 0 && StrBelow(x.1, s[k].1) {
            StrBelowTrans(s[0].1, x.1, s[k].1);
          }
        }
        var r := [x] + s;
        forall i, j | 0 <= i < j < |r| ensures !StrBelow(r[i].1, r[j].1) {
          if i > 0 {
            assert r[i] == s[i - 1] && r[j] == s[j - 1];
          }
        }
      }
    }
  }

  /** `sorted(s, key=..., reverse=True)` over pairs of element and str key; stable like Python's. */
  function StrSortDesc<T>(s: seq<(T, string)>): (r: seq<(T, string)>)
    ensures |r| == |s|
    ensures multiset(r) == multiset(s)
    ensures StrSortedDesc(r)
  {
    if s == [] then []
    else
      var p := s[..|s| - 1];
      assert s == p + [s[|s| - 1]];
      StrInsertSorted(s[|s| - 1], StrSortDesc(p));
      StrInsert(s[|s| - 1], StrSortDesc(p))
  }
}
