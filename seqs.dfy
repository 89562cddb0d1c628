/** Generic sequence operations that the application performs through the
    JavaScript array library: `find`, `filter` and the stable `sort`. */
module Seqs {

  /** `Array.prototype.find`, returning the index of the first match. */
  function Find<T>(s: seq<T>, p: T -> bool): (r: Option<nat>)
    ensures r.Some? ==> r.value < |s| && p(s[r.value])
    ensures r.Some? ==> forall j :: 0 <= j < r.value ==> !p(s[j])
    ensures r.None? <==> forall j :: 0 <= j < |s| ==> !p(s[j])
  {
    if |s| == 0 then None
    else if p(s[0]) then Some(0)
    else match Find(s[1..], p)
      case None => None
      case Some(k) => Some(k + 1)
  }

  datatype Option<T> = None | Some(value: T)

  /** Two lists whose elements match at the same positions are searched alike. */
  lemma {:induction false} FindAgrees<T, U>(a: seq<T>, b: seq<U>, p: T -> bool, q: U -> bool)
    requires |a| == |b| && forall j :: 0 <= j < |a| ==> p(a[j]) == q(b[j])
    ensures Find(a, p) == Find(b, q)
  {
    if |a| > 0 {
      FindAgrees(a[1..], b[1..], p, q);
    }
  }

  /** Overwriting an element by one that `p` judges alike leaves the search as
      it was. */
  lemma FindUpdate<T>(s: seq<T>, k: nat, x: T, p: T -> bool)
    requires k < |s| && p(x) == p(s[k])
    ensures Find(s[k := x], p) == Find(s, p)
  {
    FindAgrees(s, s[k := x], p, p);
  }

  /** Appending an element is searched after everything already there. */
  lemma {:induction false} FindAppend<T>(s: seq<T>, x: T, p: T -> bool)
    ensures Find(s + [x], p) == if Find(s, p).Some? then Find(s, p) else if p(x) then Some(|s|) else None
  {
    if |s| > 0 {
      assert (s + [x])[1..] == s[1..] + [x];
      FindAppend(s[1..], x, p);
    }
  }

  /** `r` is `s` with some elements left out: what remains keeps `s`'s order. */
  ghost predicate SubsequenceOf<T>(r: seq<T>, s: seq<T>)
    decreases |s|
  {
    if |r| == 0 then true
    else if |s| == 0 then false
    else if r[0] == s[0] then SubsequenceOf(r[1..], s[1..])
    else SubsequenceOf(r, s[1..])
  }

  /** `r` is what `filter` leaves of `s`: in `s`'s order, every copy of each
      element that satisfies `p`, and nothing else. */
  ghost predicate Filtered<T>(r: seq<T>, s: seq<T>, p: T -> bool)
  {
    && SubsequenceOf(r, s)
    && forall i :: 0 <= i < |s| ==> multiset(r)[s[i]] == if p(s[i]) then multiset(s)[s[i]] else 0
  }

  /** `Array.prototype.filter`: the elements that satisfy `p`, in order. */
  function Filter<T>(s: seq<T>, p: T -> bool): (r: seq<T>)
    ensures |r| <= |s|
    ensures forall i :: 0 <= i < |r| ==> r[i] in s && p(r[i])
    ensures forall i :: 0 <= i < |s| && p(s[i]) ==> s[i] in r
    ensures multiset(r) <= multiset(s)
    ensures Filtered(r, s, p)
  {
    if |s| == 0 then []
    else
      var rest := Filter(s[1..], p);
      if p(s[0]) then
        FilteredKeep(s, p, rest);
        FilteredFacts([s[0]] + rest, s, p);
        [s[0]] + rest
      else
        FilteredSkip(s, p, rest);
        FilteredFacts(rest, s, p);
        rest
  }

  /** The plainer facts `Filtered` implies: the result is no longer, holds only
      elements of `s` that satisfy `p`, and holds every one that does. */
  lemma FilteredFacts<T>(r: seq<T>, s: seq<T>, p: T -> bool)
    requires Filtered(r, s, p)
    ensures |r| <= |s|
    ensures forall i :: 0 <= i < |r| ==> r[i] in s && p(r[i])
    ensures forall i :: 0 <= i < |s| && p(s[i]) ==> s[i] in r
    ensures multiset(r) <= multiset(s)
  {
    SubsequenceMultiset(r, s);
    forall i | 0 <= i < |r| ensures r[i] in s && p(r[i]) {
      FilteredCount(r, s, p, r[i]);
      assert r[i] in multiset(r);
    }
  }

  /** Leaving elements out never adds copies. */
  lemma {:induction false} SubsequenceMultiset<T>(r: seq<T>, s: seq<T>)
    requires SubsequenceOf(r, s)
    ensures multiset(r) <= multiset(s) && |r| <= |s|
    decreases |s|
  {
    if |r| > 0 {
      assert s == [s[0]] + s[1..];
      if r[0] == s[0] {
        assert r == [r[0]] + r[1..];
        SubsequenceMultiset(r[1..], s[1..]);
      } else {
        SubsequenceMultiset(r, s[1..]);
      }
    }
  }

  /** What `Filtered` says of every value, in `s` or not. */
  lemma FilteredCount<T>(r: seq<T>, s: seq<T>, p: T -> bool, x: T)
    requires Filtered(r, s, p)
    ensures multiset(r)[x] == if p(x) then multiset(s)[x] else 0
  {
    if x in s {
      var i :| 0 <= i < |s| && s[i] == x;
    } else {
      SubsequenceMultiset(r, s);
    }
  }

  /** A first element that satisfies `p` is kept in front of the rest's result. */
  lemma FilteredKeep<T>(s: seq<T>, p: T -> bool, rest: seq<T>)
    requires |s| > 0 && p(s[0]) && Filtered(rest, s[1..], p)
    ensures Filtered([s[0]] + rest, s, p)
  {
    var r := [s[0]] + rest;
    assert r[0] == s[0] && r[1..] == rest;
    assert s == [s[0]] + s[1..];
    forall i | 0 <= i < |s| ensures multiset(r)[s[i]] == if p(s[i]) then multiset(s)[s[i]] else 0 {
      var x := s[i];
      FilteredCount(rest, s[1..], p, x);
      assert multiset(r)[x] == multiset([s[0]])[x] + multiset(rest)[x];
      assert multiset(s)[x] == multiset([s[0]])[x] + multiset(s[1..])[x];
    }
  }

  /** A first element that fails `p` is dropped. */
  lemma FilteredSkip<T>(s: seq<T>, p: T -> bool, rest: seq<T>)
    requires |s| > 0 && !p(s[0]) && Filtered(rest, s[1..], p)
    ensures Filtered(rest, s, p)
  {
    assert s == [s[0]] + s[1..];
    if |rest| > 0 {
      FilteredCount(rest, s[1..], p, rest[0]);
      assert rest[0] != s[0];
    }
    forall i | 0 <= i < |s| ensures multiset(rest)[s[i]] == if p(s[i]) then multiset(s)[s[i]] else 0 {
      var x := s[i];
      FilteredCount(rest, s[1..], p, x);
      assert multiset(s)[x] == multiset([s[0]])[x] + multiset(s[1..])[x];
    }
  }

  /** `Filtered` pins the result: the only sequence it admits is `Filter`'s. */
  lemma {:induction false} FilteredUnique<T>(r: seq<T>, s: seq<T>, p: T -> bool)
    requires Filtered(r, s, p)
    ensures r == Filter(s, p)
    decreases |s|
  {
    if |s| == 0 {
      assert |r| == 0;
    } else {
      var x := s[0];
      var t := s[1..];
      assert s == [x] + t;
      FilteredCount(r, s, p, x);
      if p(x) {
        assert multiset(r)[x] == multiset(s)[x] > 0;
        if r[0] != x {
          SubsequenceMultiset(r, t);
          assert false;
        }
        assert r == [x] + r[1..];
        forall i | 0 <= i < |t| ensures multiset(r[1..])[t[i]] == if p(t[i]) then multiset(t)[t[i]] else 0 {
          var y := t[i];
          FilteredCount(r, s, p, y);
          assert multiset(r)[y] == multiset([x])[y] + multiset(r[1..])[y];
          assert multiset(s)[y] == multiset([x])[y] + multiset(t)[y];
        }
        FilteredUnique(r[1..], t, p);
      } else {
        if |r| > 0 {
          assert r[0] in multiset(r);
          assert r[0] != x;
        }
        forall i | 0 <= i < |t| ensures multiset(r)[t[i]] == if p(t[i]) then multiset(t)[t[i]] else 0 {
          var y := t[i];
          FilteredCount(r, s, p, y);
          assert multiset(s)[y] == multiset([x])[y] + multiset(t)[y];
        }
        FilteredUnique(r, t, p);
      }
    }
  }

  /** How many elements satisfy `p`, counted one by one. */
  function Count<T>(s: seq<T>, p: T -> bool): nat
  {
    if |s| == 0 then 0
    else (if p(s[0]) then 1 else 0) + Count(s[1..], p)
  }

  /** `filter(p).length` counts the elements that satisfy `p`. */
  lemma {:induction false} FilterCount<T>(s: seq<T>, p: T -> bool)
    ensures |Filter(s, p)| == Count(s, p)
  {
    if |s| > 0 {
      FilterCount(s[1..], p);
    }
  }

  lemma {:induction false} FilterAppend<T>(a: seq<T>, b: seq<T>, p: T -> bool)
    ensures Filter(a + b, p) == Filter(a, p) + Filter(b, p)
  {
    if |a| > 0 {
      assert (a + b)[1..] == a[1..] + b;
      FilterAppend(a[1..], b, p);
    } else {
      assert a + b == b;
    }
  }

  /** Every element is kept by exactly one of `p` and its negation. */
  lemma {:induction false} FilterComplement<T>(s: seq<T>, p: T -> bool, q: T -> bool)
    requires forall x :: q(x) == !p(x)
    ensures |Filter(s, p)| + |Filter(s, q)| == |s|
  {
    if |s| > 0 {
      FilterComplement(s[1..], p, q);
    }
  }

  /** The elements are in non-decreasing order of `key`. */
  predicate Ascending<T>(s: seq<T>, key: T -> int)
  {
    forall i, j :: 0 <= i < j < |s| ==> key(s[i]) <= key(s[j])
  }

  /** The elements whose key is `k`, in their order. */
  function WithKey<T>(s: seq<T>, key: T -> int, k: int): seq<T>
  {
    Filter(s, x => key(x) == k)
  }

  /** Puts `x` in front of the first element whose key is not smaller: `x` comes
      from earlier in the input than every element of `s`, so ties keep their
      input order. */
  function Insert<T>(x: T, s: seq<T>, key: T -> int): seq<T>
  {
    if |s| == 0 then [x]
    else if key(x) <= key(s[0]) then [x] + s
    else [s[0]] + Insert(x, s[1..], key)
  }

  lemma Split<T>(a: seq<T>, b: seq<T>)
    ensures (a + b)[..|a|] == a && (a + b)[|a|..] == b
  {
  }

  lemma AppendAssoc<T>(a: seq<T>, b: seq<T>, c: seq<T>)
    ensures (a + b) + c == a + (b + c)
  {
  }

  lemma AscendingTail<T>(s: seq<T>, key: T -> int)
    requires Ascending(s, key) && |s| > 0
    ensures Ascending(s[1..], key)
  {
    forall i, j | 0 <= i < j < |s[1..]| ensures key(s[1..][i]) <= key(s[1..][j]) {
      assert s[1..][i] == s[i + 1] && s[1..][j] == s[j + 1];
    }
  }

  /** An element no larger than everything after it extends an ascending run. */
  lemma AscendingCons<T>(h: T, t: seq<T>, key: T -> int)
    requires Ascending(t, key) && forall j :: 0 <= j < |t| ==> key(h) <= key(t[j])
    ensures Ascending([h] + t, key)
  {
    var r := [h] + t;
    forall i, j | 0 <= i < j < |r| ensures key(r[i]) <= key(r[j]) {
      assert r[j] == t[j - 1];
      if i > 0 {
        assert r[i] == t[i - 1];
      }
    }
  }

  lemma {:induction false} InsertFacts<T>(x: T, s: seq<T>, key: T -> int)
    requires Ascending(s, key)
    ensures Ascending(Insert(x, s, key), key)
    ensures multiset(Insert(x, s, key)) == multiset(s) + multiset{x}
    ensures |Insert(x, s, key)| == |s| + 1
  {
    if |s| == 0 {
    } else if key(x) <= key(s[0]) {
      AscendingCons(x, s, key);
    } else {
      var tail := s[1..];
      assert s == [s[0]] + tail;
      AscendingTail(s, key);
      InsertFacts(x, tail, key);
      var t := Insert(x, tail, key);
      forall j | 0 <= j < |t| ensures key(s[0]) <= key(t[j]) {
        assert t[j] in multiset(tail) + multiset{x};
        if t[j] != x {
          assert t[j] in tail;
          var i :| 0 <= i < |tail| && tail[i] == t[j];
          assert s[i + 1] == t[j];
        }
      }
      AscendingCons(s[0], t, key);
    }
  }

  /** A stable insertion sort by ascending `key`, which is what
      `array.sort((a, b) => key(a) - key(b))` computes. */
  function SortBy<T>(s: seq<T>, key: T -> int): (r: seq<T>)
    ensures |r| == |s|
    ensures multiset(r) == multiset(s)
    ensures Ascending(r, key)
  {
    if |s| == 0 then []
    else
      var rest := SortBy(s[1..], key);
      InsertFacts(s[0], rest, key);
      assert multiset(s) == multiset(s[1..]) + multiset{s[0]} by {
        assert s == [s[0]] + s[1..];
      }
      Insert(s[0], rest, key)
  }

  lemma WithKeyCons<T>(h: T, t: seq<T>, key: T -> int, k: int)
    ensures WithKey([h] + t, key, k) == if key(h) == k then [h] + WithKey(t, key, k) else WithKey(t, key, k)
  {
    assert ([h] + t)[1..] == t;
  }

  lemma {:induction false} InsertWithKey<T>(x: T, s: seq<T>, key: T -> int, k: int)
    requires Ascending(s, key)
    ensures WithKey(Insert(x, s, key), key, k)
         == if key(x) == k then [x] + WithKey(s, key, k) else WithKey(s, key, k)
  {
    if |s| == 0 || key(x) <= key(s[0]) {
      assert Insert(x, s, key) == [x] + s;
      WithKeyCons(x, s, key, k);
    } else {
      AscendingTail(s, key);
      InsertWithKey(x, s[1..], key, k);
      InsertWithKeyLater(x, s, key, k);
    }
  }

  /** The step of InsertWithKey where `x` goes after the head, whose key is
      smaller. */
  lemma InsertWithKeyLater<T>(x: T, s: seq<T>, key: T -> int, k: int)
    requires |s| > 0 && key(s[0]) < key(x)
    requires WithKey(Insert(x, s[1..], key), key, k)
          == if key(x) == k then [x] + WithKey(s[1..], key, k) else WithKey(s[1..], key, k)
    ensures WithKey(Insert(x, s, key), key, k)
         == if key(x) == k then [x] + WithKey(s, key, k) else WithKey(s, key, k)
  {
    var t := Insert(x, s[1..], key);
    assert Insert(x, s, key) == [s[0]] + t;
    WithKeyCons(s[0], t, key, k);
    if key(x) == k {
      assert WithKey(s, key, k) == WithKey(s[1..], key, k);
    } else if key(s[0]) == k {
      assert WithKey(s, key, k) == [s[0]] + WithKey(s[1..], key, k);
    }
  }

  /** Stability: sorting keeps, for every key, the input order of the elements
      with that key. */
  lemma {:induction false} SortByStable<T>(s: seq<T>, key: T -> int, k: int)
    ensures WithKey(SortBy(s, key), key, k) == WithKey(s, key, k)
  {
    if |s| > 0 {
      SortByStable(s[1..], key, k);
      InsertWithKey(s[0], SortBy(s[1..], key), key, k);
    }
  }

  /** The first `n` elements (`slice(0, n)`). */
  function Take<T>(s: seq<T>, n: nat): (r: seq<T>)
    ensures |r| == if |s| < n then |s| else n
    ensures forall i :: 0 <= i < |r| ==> r[i] == s[i]
  {
    if |s| < n then s else s[..n]
  }

  /** Rearrangements have the same members. */
  lemma SameMembers<T>(a: seq<T>, b: seq<T>)
    requires multiset(a) == multiset(b)
    ensures forall i :: 0 <= i < |a| ==> a[i] in b
    ensures forall i :: 0 <= i < |b| ==> b[i] in a
  {
    forall i | 0 <= i < |a| ensures a[i] in b {
      assert a[i] in multiset(a);
    }
    forall i | 0 <= i < |b| ensures b[i] in a {
      assert b[i] in multiset(b);
    }
  }

  /** No element occurs twice. */
  predicate Distinct<T(==)>(s: seq<T>)
  {
    forall i, j :: 0 <= i < j < |s| ==> s[i] != s[j]
  }

  lemma {:induction false} DistinctCounts<T>(s: seq<T>, x: T)
    requires Distinct(s)
    ensures multiset(s)[x] <= 1
  {
    if |s| > 0 {
      var t := s[1..];
      assert s == [s[0]] + t;
      assert Distinct(t) by {
        forall i, j | 0 <= i < j < |t| ensures t[i] != t[j] {
          assert t[i] == s[i + 1] && t[j] == s[j + 1];
        }
      }
      DistinctCounts(t, x);
      if x == s[0] {
        forall i | 0 <= i < |t| ensures t[i] != x {
          assert t[i] == s[i + 1];
        }
      }
    }
  }

  lemma RepeatedCounts<T>(s: seq<T>, i: nat, j: nat)
    requires i < j < |s| && s[i] == s[j]
    ensures multiset(s)[s[i]] >= 2
  {
    assert s == s[..j] + s[j..];
    assert s[i] in s[..j];
    assert s[j] in s[j..];
    assert multiset(s) == multiset(s[..j]) + multiset(s[j..]);
  }

  /** Every rearrangement of a part of a duplicate-free sequence is duplicate-free. */
  lemma DistinctSubMultiset<T>(s: seq<T>, r: seq<T>)
    requires Distinct(s) && multiset(r) <= multiset(s)
    ensures Distinct(r)
  {
    forall i, j | 0 <= i < j < |r| ensures r[i] != r[j] {
      if r[i] == r[j] {
        RepeatedCounts(r, i, j);
        DistinctCounts(s, r[i]);
        assert false;
      }
    }
  }
}
