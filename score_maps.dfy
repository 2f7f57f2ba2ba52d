/** A raw score map (`Record<string, number>`): category label to
    accumulated points. It is an association list because JavaScript
    objects keep their keys in insertion order, and `Object.entries`
    order decides ties in the rankings built from these maps. */
module ScoreMaps {
  import opened Common
  import opened StableSort

  datatype Entry = Entry(key: string, value: int)

  type ScoreMap = seq<Entry>

  /** An object has each key once. */
  ghost predicate DistinctKeys(m: ScoreMap)
  {
    forall i, j :: 0 <= i < j < |m| ==> m[i].key != m[j].key
  }

  /** `Object.keys(m)`. */
  function Keys(m: ScoreMap): (r: seq<string>)
    ensures |r| == |m|
    ensures forall i :: 0 <= i < |m| ==> r[i] == m[i].key
  {
    if m == [] then [] else [m[0].key] + Keys(m[1..])
  }

  /** `m[k]`: the value under `k`, or `None` for `undefined`. */
  function Get(m: ScoreMap, k: string): (r: Option<int>)
    ensures r.None? <==> forall i :: 0 <= i < |m| ==> m[i].key != k
    ensures r.Some? ==> Entry(k, r.value) in m
  {
    if m == [] then None
    else if m[0].key == k then Some(m[0].value)
    else
      var r := Get(m[1..], k);
      assert forall i :: 1 <= i < |m| ==> m[i] == m[1..][i - 1];
      r
  }

  /** `m[k] || 0`: an absent key (or a stored 0) reads as 0. */
  function GetOr0(m: ScoreMap, k: string): (r: int)
    ensures Get(m, k).None? ==> r == 0
    ensures Get(m, k).Some? ==> r == Get(m, k).value
  {
    match Get(m, k)
    case None => 0
    case Some(v) => v
  }

  /** `{...m, [k]: v}` and `m[k] = v`: the key reads back as `v` and every
      other key reads as before. */
  function Put(m: ScoreMap, k: string, v: int): (r: ScoreMap)
    ensures Get(r, k) == Some(v)
    ensures forall k' :: k' != k ==> Get(r, k') == Get(m, k')
  {
    if m == [] then [Entry(k, v)]
    else if m[0].key == k then [Entry(k, v)] + m[1..]
    else
      var t := Put(m[1..], k, v);
      assert ([m[0]] + t)[1..] == t;
      [m[0]] + t
  }

  /** An existing key keeps its place in the key order; a new key goes at
      the end. */
  lemma {:induction false} PutKeys(m: ScoreMap, k: string, v: int)
    ensures Get(m, k).Some? ==> Keys(Put(m, k, v)) == Keys(m)
    ensures Get(m, k).None? ==> Keys(Put(m, k, v)) == Keys(m) + [k]
  {
    if m != [] && m[0].key != k {
      PutKeys(m[1..], k, v);
      assert Put(m, k, v) == [m[0]] + Put(m[1..], k, v);
      assert Put(m, k, v)[1..] == Put(m[1..], k, v);
    } else if m != [] {
      assert Put(m, k, v)[1..] == m[1..];
    }
  }

  lemma {:induction false} PutDistinct(m: ScoreMap, k: string, v: int)
    requires DistinctKeys(m)
    ensures DistinctKeys(Put(m, k, v))
  {
    PutKeys(m, k, v);
    var r := Put(m, k, v);
    forall i, j | 0 <= i < j < |r| ensures r[i].key != r[j].key {
      assert r[i].key == Keys(r)[i] && r[j].key == Keys(r)[j];
      if Get(m, k).None? && j == |m| {
        assert Keys(m)[i] == m[i].key;
      } else {
        assert Keys(m)[i] == m[i].key && Keys(m)[j] == m[j].key;
      }
    }
  }

  /** A new map with `k` set and every other key untouched: what the
      assessment handlers produce when an answer carries a score impact,
      `{...prev, [cat]: (prev[cat] || 0) + value}`. */
  function AddImpact(m: ScoreMap, cat: string, value: int): (r: ScoreMap)
    ensures Get(r, cat) == Some(GetOr0(m, cat) + value)
    ensures forall k :: k != cat ==> Get(r, k) == Get(m, k)
  {
    Put(m, cat, GetOr0(m, cat) + value)
  }

  /** `Object.values(m).reduce((a, b) => a + b, 0)`. */
  function Sum(m: ScoreMap): int
  {
    if m == [] then 0 else Sum(m[..|m| - 1]) + m[|m| - 1].value
  }

  lemma {:induction false} SumNonNegative(m: ScoreMap)
    requires forall e :: e in m ==> e.value >= 0
    ensures Sum(m) >= 0
  {
    if m != [] {
      SumNonNegative(m[..|m| - 1]);
    }
  }

  function EntryValue(e: Entry): real
  {
    e.value as real
  }

  /** `Object.entries(m).sort((a, b) => b[1] - a[1]).slice(0, k)`: the `k`
      entries with the highest values, ties in insertion order. */
  function TopEntries(m: ScoreMap, k: nat): (r: seq<Entry>)
    ensures |r| == if |m| < k then |m| else k
    ensures forall i, j :: 0 <= i < j < |r| ==> r[i].value >= r[j].value
    ensures forall e :: e in r ==> e in m
    ensures multiset(r) <= multiset(m)
    ensures forall e :: e in m && e !in r ==> forall f :: f in r ==> f.value >= e.value
  {
    var r := TopK(m, EntryValue, k);
    assert SortedDesc(r, EntryValue);
    forall e | e in r ensures e in m {
      assert e in multiset(r);
    }
    r
  }

  /** Ties go to insertion order: the top entry is the first entry of the
      map whose value is the largest, every entry before it scoring less. */
  lemma TopEntryFirstMax(m: ScoreMap)
    requires m != []
    ensures exists t | 0 <= t < |m| ::
              && TopEntries(m, 1)[0] == m[t]
              && (forall e | e in m :: e.value <= m[t].value)
              && forall i | 0 <= i < t :: m[i].value < m[t].value
  {
    var t := TopEntryIndex(m);
  }

  /** The place in the map of the top entry. */
  lemma TopEntryIndex(m: ScoreMap) returns (t: nat)
    requires m != []
    ensures t < |m| && TopEntries(m, 1)[0] == m[t]
    ensures forall e | e in m :: e.value <= m[t].value
    ensures forall i | 0 <= i < t :: m[i].value < m[t].value
  {
    TopEntryLargest(m);
    TopEntryIsSortHead(m);
    t := SortHeadIndex(m, EntryValue);
  }

  /** The top entry is the head of the stable sort. */
  lemma TopEntryIsSortHead(m: ScoreMap)
    requires m != []
    ensures TopEntries(m, 1)[0] == SortDesc(m, EntryValue)[0]
  {
    assert TopEntries(m, 1) == SortDesc(m, EntryValue)[..1];
  }

  /** No entry of the map scores more than the top entry. */
  lemma TopEntryLargest(m: ScoreMap)
    requires m != []
    ensures forall e | e in m :: e.value <= TopEntries(m, 1)[0].value
  {
    var r := TopEntries(m, 1);
    assert r[0] in r;
    forall e | e in m ensures e.value <= r[0].value {
      if e != r[0] {
        assert e !in r;
      }
    }
  }
}
