/** `Array.prototype.sort` with the comparator `(a, b) => key(b) - key(a)`:
    a stable sort into non-increasing key order. Every ranking in the
    system (sports matches, academic streams, career domains, the top
    entries of a score map) is this sort, so it is defined once here. */
module StableSort {

  ghost predicate SortedDesc<T>(s: seq<T>, key: T -> real)
  {
    forall i, j :: 0 <= i < j < |s| ==> key(s[i]) >= key(s[j])
  }

  /** The elements of `s` whose key is `v`, in their order in `s`. */
  function WithKey<T>(s: seq<T>, key: T -> real, v: real): (r: seq<T>)
    ensures |r| <= |s|
    ensures forall x :: x in r ==> x in s && key(x) == v
  {
    if s == [] then []
    else (if key(s[0]) == v then [s[0]] else []) + WithKey(s[1..], key, v)
  }

  /** Puts `x` in front of the first element whose key is not larger than its own. */
  function Insert<T>(x: T, s: seq<T>, key: T -> real): (r: seq<T>)
    ensures |r| == |s| + 1
    ensures multiset(r) == multiset(s) + multiset{x}
  {
    if s == [] then [x]
    else if key(s[0]) > key(x) then
      assert s == [s[0]] + s[1..];
      [s[0]] + Insert(x, s[1..], key)
    else [x] + s
  }

  /** An element no smaller than every element of a sorted sequence can
      go in front of it. */
  lemma ConsSorted<T>(x: T, s: seq<T>, key: T -> real)
    requires SortedDesc(s, key)
    requires forall y :: y in s ==> key(x) >= key(y)
    ensures SortedDesc([x] + s, key)
  {
    var r := [x] + s;
    forall i, j | 0 <= i < j < |r| ensures key(r[i]) >= key(r[j]) {
      assert r[j] == s[j - 1];
      if i > 0 {
        assert r[i] == s[i - 1];
      }
    }
  }

  /** The head of a sorted sequence is its largest element. */
  lemma HeadLargest<T>(s: seq<T>, key: T -> real)
    requires SortedDesc(s, key) && s != []
    ensures forall y :: y in s ==> key(s[0]) >= key(y)
  {
    forall y | y in s ensures key(s[0]) >= key(y) {
      var k :| 0 <= k < |s| && s[k] == y;
    }
  }

  lemma {:induction false} InsertSorted<T>(x: T, s: seq<T>, key: T -> real)
    requires SortedDesc(s, key)
    ensures SortedDesc(Insert(x, s, key), key)
  {
    if s == [] {
    } else if key(s[0]) > key(x) {
      var t := Insert(x, s[1..], key);
      InsertSorted(x, s[1..], key);
      HeadLargest(s, key);
      forall y | y in t ensures key(s[0]) >= key(y) {
        assert y in multiset(t);
        if y != x {
          assert y in multiset(s[1..]);
          assert y in s[1..];
        }
      }
      ConsSorted(s[0], t, key);
    } else {
      HeadLargest(s, key);
      ConsSorted(x, s, key);
    }
  }

  /** Insertion sort from the back: the first element is inserted into the
      sorted rest, ahead of every element with an equal key. */
  function SortDesc<T>(s: seq<T>, key: T -> real): (r: seq<T>)
    ensures |r| == |s|
    ensures multiset(r) == multiset(s)
    ensures SortedDesc(r, key)
  {
    if s == [] then []
    else
      assert s == [s[0]] + s[1..];
      var t := SortDesc(s[1..], key);
      InsertSorted(s[0], t, key);
      Insert(s[0], t, key)
  }

  /** The leading elements of `s` whose keys exceed `key(x)`: the ones
      `Insert` steps over. */
  function Skip<T>(x: T, s: seq<T>, key: T -> real): (r: seq<T>)
    ensures forall y :: y in r ==> key(y) > key(x)
  {
    if s != [] && key(s[0]) > key(x) then [s[0]] + Skip(x, s[1..], key) else []
  }

  /** What follows the skipped elements. */
  function Rest<T>(x: T, s: seq<T>, key: T -> real): seq<T>
  {
    if s != [] && key(s[0]) > key(x) then Rest(x, s[1..], key) else s
  }

  /** Skipped elements and the rest make up the whole sequence. */
  lemma {:induction false} SkipRest<T>(x: T, s: seq<T>, key: T -> real)
    ensures s == Skip(x, s, key) + Rest(x, s, key)
  {
    if s != [] && key(s[0]) > key(x) {
      SkipRest(x, s[1..], key);
      assert s == [s[0]] + s[1..];
    }
  }

  /** `Insert` places `x` right after the elements it steps over. */
  lemma {:induction false} InsertSplit<T>(x: T, s: seq<T>, key: T -> real)
    ensures Insert(x, s, key) == Skip(x, s, key) + [x] + Rest(x, s, key)
  {
    if s != [] && key(s[0]) > key(x) {
      InsertSplit(x, s[1..], key);
      var sk, rs := Skip(x, s[1..], key), Rest(x, s[1..], key);
      assert Skip(x, s, key) == [s[0]] + sk;
      assert Rest(x, s, key) == rs;
      assert Insert(x, s, key) == [s[0]] + (sk + [x] + rs);
      assert [s[0]] + (sk + [x] + rs) == ([s[0]] + sk) + [x] + rs;
    }
  }

  lemma {:induction false} WithKeyAppend<T>(a: seq<T>, b: seq<T>, key: T -> real, v: real)
    ensures WithKey(a + b, key, v) == WithKey(a, key, v) + WithKey(b, key, v)
  {
    if a != [] {
      WithKeyAppend(a[1..], b, key, v);
      assert (a + b)[1..] == a[1..] + b;
    } else {
      assert a + b == b;
    }
  }

  lemma WithKeyNone<T>(s: seq<T>, key: T -> real, v: real)
    requires forall y :: y in s ==> key(y) != v
    ensures WithKey(s, key, v) == []
  {
  }

  /** Stability: for every key value, the elements with that key come out
      in the order they went in. Together with sortedness and the multiset
      equality this pins the result down completely. */
  lemma {:induction false} SortDescStable<T>(s: seq<T>, key: T -> real, v: real)
    ensures WithKey(SortDesc(s, key), key, v) == WithKey(s, key, v)
  {
    if s != [] {
      var x, t := s[0], SortDesc(s[1..], key);
      var sk, rs := Skip(x, t, key), Rest(x, t, key);
      var wx := if key(x) == v then [x] else [];
      SortDescStable(s[1..], key, v);
      assert WithKey(t, key, v) == WithKey(s[1..], key, v);
      InsertSplit(x, t, key);
      assert SortDesc(s, key) == sk + [x] + rs;
      SkipRest(x, t, key);
      assert t == sk + rs;
      WithKeyAppend(sk + [x], rs, key, v);
      WithKeyAppend(sk, [x], key, v);
      assert WithKey(SortDesc(s, key), key, v) == WithKey(sk, key, v) + WithKey([x], key, v) + WithKey(rs, key, v);
      assert WithKey([x], key, v) == wx;
      WithKeyAppend(sk, rs, key, v);
      assert WithKey(t, key, v) == WithKey(sk, key, v) + WithKey(rs, key, v);
      assert WithKey(s, key, v) == wx + WithKey(s[1..], key, v);
      if key(x) == v {
        WithKeyNone(sk, key, v);
      }
      Interleave(WithKey(sk, key, v), wx, WithKey(rs, key, v));
    }
  }

  /** The first element with key `v` is the first of `s` with that key. */
  lemma {:induction false} WithKeyFirst<T>(s: seq<T>, key: T -> real, v: real)
    requires WithKey(s, key, v) != []
    ensures exists t | 0 <= t < |s| ::
              s[t] == WithKey(s, key, v)[0] && forall i | 0 <= i < t :: key(s[i]) != v
  {
    if key(s[0]) != v {
      var rest := s[1..];
      assert WithKey(s, key, v) == WithKey(rest, key, v);
      WithKeyFirst(rest, key, v);
      var t :| 0 <= t < |rest| && rest[t] == WithKey(rest, key, v)[0]
               && forall i | 0 <= i < t :: key(rest[i]) != v;
      assert s[t + 1] == WithKey(s, key, v)[0];
      forall i | 0 <= i < t + 1 ensures key(s[i]) != v {
        if i > 0 {
          assert s[i] == rest[i - 1];
        }
      }
    }
  }

  /** The head of the stable sort is the first element of `s` with the
      largest key: every element before it has a strictly smaller key. */
  lemma SortHeadIsFirstMax<T>(s: seq<T>, key: T -> real)
    requires s != []
    ensures exists t | 0 <= t < |s| ::
              SortDesc(s, key)[0] == s[t] && forall i | 0 <= i < t :: key(s[i]) < key(s[t])
  {
    var t := SortHeadIndex(s, key);
  }

  /** The place in `s` of the head of its sort. */
  lemma SortHeadIndex<T>(s: seq<T>, key: T -> real) returns (t: nat)
    requires s != []
    ensures t < |s| && SortDesc(s, key)[0] == s[t]
    ensures forall i | 0 <= i < t :: key(s[i]) < key(s[t])
  {
    var sorted := SortDesc(s, key);
    var v := key(sorted[0]);
    assert WithKey(sorted, key, v)[0] == sorted[0];
    SortDescStable(s, key, v);
    WithKeyFirst(s, key, v);
    t :| 0 <= t < |s| && s[t] == WithKey(s, key, v)[0]
         && forall i | 0 <= i < t :: key(s[i]) != v;
    assert s[t] == sorted[0];
    SortHeadDominates(s, key);
  }

  /** No element of `s` has a larger key than the head of its sort. */
  lemma SortHeadDominates<T>(s: seq<T>, key: T -> real)
    requires s != []
    ensures forall i | 0 <= i < |s| :: key(s[i]) <= key(SortDesc(s, key)[0])
  {
    var sorted := SortDesc(s, key);
    HeadLargest(sorted, key);
    forall i | 0 <= i < |s| ensures key(s[i]) <= key(sorted[0]) {
      assert s[i] in multiset(sorted);
    }
  }

  /** Appending around an empty piece. */
  lemma Interleave<T>(a: seq<T>, w: seq<T>, b: seq<T>)
    requires a == [] || w == []
    ensures a + w + b == w + (a + b)
  {
  }

  /** In a sorted sequence, an element past position `n` has a key no
      larger than any element before it. */
  lemma PrefixDominates<T>(sorted: seq<T>, key: T -> real, n: nat, x: T)
    requires SortedDesc(sorted, key) && n <= |sorted|
    requires x in sorted[n..]
    ensures forall y :: y in sorted[..n] ==> key(y) >= key(x)
  {
    var j :| n <= j < |sorted| && sorted[j] == x;
    forall y | y in sorted[..n] ensures key(y) >= key(x) {
      var i :| 0 <= i < n && sorted[i] == y;
    }
  }

  /** `sorted.slice(0, k)`: the first `k` entries of the stable sort. */
  function TopK<T>(s: seq<T>, key: T -> real, k: nat): (r: seq<T>)
    ensures |r| == if |s| < k then |s| else k
    ensures multiset(r) <= multiset(s)
    ensures SortedDesc(r, key)
    ensures forall x :: x in s && x !in r ==> forall y :: y in r ==> key(y) >= key(x)
  {
    var sorted := SortDesc(s, key);
    var n := if |s| < k then |s| else k;
    assert sorted == sorted[..n] + sorted[n..];
    assert multiset(sorted) == multiset(sorted[..n]) + multiset(sorted[n..]);
    forall x | x in s && x !in sorted[..n]
      ensures forall y :: y in sorted[..n] ==> key(y) >= key(x)
    {
      assert x in multiset(sorted);
      assert x in multiset(sorted[n..]);
      PrefixDominates(sorted, key, n, x);
    }
    sorted[..n]
  }
}
