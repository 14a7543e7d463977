// A Python dict with string keys, in insertion order: assigning to a key that is
// present keeps its place, a new key goes last, pop(key, None) removes.
module Dict {
  import opened Prelude
  import opened Ordering

  type Dict<V> = seq<(string, V)>

  function Get<V>(d: Dict<V>, k: string): (r: Option<V>)
    ensures r.Some? ==> (k, r.value) in d
    ensures r.None? ==> forall i | 0 <= i < |d| :: d[i].0 != k
  {
    if d == [] then None else if d[0].0 == k then Some(d[0].1) else Get(d[1..], k)
  }

  function Put<V>(d: Dict<V>, k: string, v: V): Dict<V> {
    if d == [] then [(k, v)]
    else if d[0].0 == k then [(k, v)] + d[1..]
    else [d[0]] + Put(d[1..], k, v)
  }

  function Pop<V>(d: Dict<V>, k: string): Dict<V> {
    if d == [] then [] else if d[0].0 == k then Pop(d[1..], k) else [d[0]] + Pop(d[1..], k)
  }

  ghost function Keys<V>(d: Dict<V>): set<string> {
    set i | 0 <= i < |d| :: d[i].0
  }

  lemma {:induction false} PutGet<V>(d: Dict<V>, k: string, v: V, q: string)
    ensures Get(Put(d, k, v), q) == if q == k then Some(v) else Get(d, q)
  {
    if d != [] && d[0].0 != k {
      PutGet(d[1..], k, v, q);
    }
  }

  lemma {:induction false} PopGet<V>(d: Dict<V>, k: string, q: string)
    ensures Get(Pop(d, k), q) == if q == k then None else Get(d, q)
  {
    if d != [] {
      PopGet(d[1..], k, q);
    }
  }

  lemma KeyHeld<V>(d: Dict<V>, i: nat)
    requires i < |d|
    ensures Get(d, d[i].0).Some?
  {
  }

  lemma {:induction false} GetAt<V>(d: Dict<V>, i: nat)
    requires i < |d| && DistinctKeys(d)
    ensures Get(d, d[i].0) == Some(d[i].1)
  {
    if i > 0 {
      GetAt(d[1..], i - 1);
    }
  }

  lemma {:induction false} PutNew<V>(d: Dict<V>, k: string, v: V)
    requires forall i | 0 <= i < |d| :: d[i].0 != k
    ensures Put(d, k, v) == d + [(k, v)]
  {
    if d != [] {
      PutNew(d[1..], k, v);
    }
  }

  lemma {:induction false} PutDistinct<V>(d: Dict<V>, k: string, v: V)
    requires DistinctKeys(d)
    ensures DistinctKeys(Put(d, k, v))
  {
    if d != [] && d[0].0 != k {
      PutDistinct(d[1..], k, v);
      var rest := Put(d[1..], k, v);
      forall j | 0 <= j < |rest| ensures rest[j].0 != d[0].0 {
        KeyHeld(rest, j);
        PutGet(d[1..], k, v, rest[j].0);
      }
    }
  }

  lemma {:induction false} PopDistinct<V>(d: Dict<V>, k: string)
    requires DistinctKeys(d)
    ensures DistinctKeys(Pop(d, k))
  {
    if d != [] {
      PopDistinct(d[1..], k);
      var rest := Pop(d[1..], k);
      forall j | 0 <= j < |rest| ensures rest[j].0 != d[0].0 {
        KeyHeld(rest, j);
        PopGet(d[1..], k, rest[j].0);
      }
    }
  }

  // sorted(d.items()) holds what d holds.
  lemma SortGet<V>(d: Dict<V>, k: string)
    requires DistinctKeys(d)
    ensures DistinctKeys(Sort(d)) && Get(Sort(d), k) == Get(d, k)
  {
    SortSorts(d);
    SortedDistinct(Sort(d));
    match Get(d, k)
    case Some(v) =>
      SortMember(d, (k, v));
      var i :| 0 <= i < |Sort(d)| && Sort(d)[i] == (k, v);
      GetAt(Sort(d), i);
    case None =>
      match Get(Sort(d), k)
      case Some(v) =>
        SortMember(d, (k, v));
      case None =>
  }
}
