// Python's ordering of strings (code point by code point) and sorted() on
// sequences of keyed records, used for canonical JSON and for change sets.
module Ordering {

  predicate Less(a: string, b: string) {
    b != [] && (a == [] || a[0] < b[0] || (a[0] == b[0] && Less(a[1..], b[1..])))
  }

  lemma {:induction false} LessTransitive(a: string, b: string, c: string)
    requires Less(a, b) && Less(b, c)
    ensures Less(a, c)
  {
    if a != [] && a[0] == b[0] && b[0] == c[0] {
      LessTransitive(a[1..], b[1..], c[1..]);
    }
  }

  lemma {:induction false} LessIrreflexive(a: string)
    ensures !Less(a, a)
  {
    if a != [] {
      LessIrreflexive(a[1..]);
    }
  }

  lemma {:induction false} LessTotal(a: string, b: string)
    ensures Less(a, b) || a == b || Less(b, a)
  {
    if a != [] && b != [] && a[0] == b[0] {
      LessTotal(a[1..], b[1..]);
      assert a == [a[0]] + a[1..] && b == [b[0]] + b[1..];
    }
  }

  // ---------- Keyed sequences ----------

  predicate DistinctKeys<V>(s: seq<(string, V)>) {
    forall i, j :: 0 <= i < j < |s| ==> s[i].0 != s[j].0
  }

  predicate SortedKeys<V>(s: seq<(string, V)>) {
    forall i, j :: 0 <= i < j < |s| ==> Less(s[i].0, s[j].0)
  }

  function Insert<V>(m: (string, V), s: seq<(string, V)>): seq<(string, V)> {
    if s == [] || Less(m.0, s[0].0) then [m] + s else [s[0]] + Insert(m, s[1..])
  }

  // sorted(d.items()): by key, since the keys of a dict are distinct.
  function Sort<V>(s: seq<(string, V)>): seq<(string, V)> {
    if s == [] then [] else Insert(s[0], Sort(s[1..]))
  }

  lemma {:induction false} InsertMember<V>(m: (string, V), s: seq<(string, V)>, x: (string, V))
    ensures |Insert(m, s)| == |s| + 1
    ensures x in Insert(m, s) <==> x == m || x in s
  {
    if s != [] && !Less(m.0, s[0].0) {
      InsertMember(m, s[1..], x);
      assert s == [s[0]] + s[1..];
    }
  }

  lemma {:induction false} InsertSorted<V>(m: (string, V), s: seq<(string, V)>)
    requires SortedKeys(s)
    requires forall x :: x in s ==> x.0 != m.0
    ensures SortedKeys(Insert(m, s))
  {
    if s != [] {
      LessTotal(m.0, s[0].0);
      assert s[0] in s;
      if Less(m.0, s[0].0) {
        forall j | 0 < j < |s| ensures Less(m.0, s[j].0) {
          LessTransitive(m.0, s[0].0, s[j].0);
        }
      } else {
        assert forall x :: x in s[1..] ==> x in s;
        InsertSorted(m, s[1..]);
        var t := Insert(m, s[1..]);
        forall j | 0 <= j < |t| ensures Less(s[0].0, t[j].0) {
          InsertMember(m, s[1..], t[j]);
          assert t[j] in t;
          if t[j] != m {
            var rest := s[1..];
            var k :| 0 <= k < |rest| && rest[k] == t[j];
            assert s[k + 1] == t[j];
          }
        }
      }
    }
  }

  lemma {:induction false} SortMember<V>(s: seq<(string, V)>, x: (string, V))
    ensures |Sort(s)| == |s|
    ensures x in Sort(s) <==> x in s
  {
    if s != [] {
      SortMember(s[1..], x);
      InsertMember(s[0], Sort(s[1..]), x);
      assert s == [s[0]] + s[1..];
    }
  }

  lemma {:induction false} SortSorts<V>(s: seq<(string, V)>)
    requires DistinctKeys(s)
    ensures SortedKeys(Sort(s))
  {
    if s != [] {
      SortSorts(s[1..]);
      forall x | x in Sort(s[1..]) ensures x.0 != s[0].0 {
        var rest := s[1..];
        SortMember(rest, x);
        var k :| 0 <= k < |rest| && rest[k] == x;
        assert s[k + 1] == x;
      }
      InsertSorted(s[0], Sort(s[1..]));
    }
  }

  lemma SortedDistinct<V>(s: seq<(string, V)>)
    requires SortedKeys(s)
    ensures DistinctKeys(s)
  {
    forall i, j | 0 <= i < j < |s| ensures s[i].0 != s[j].0 {
      LessIrreflexive(s[i].0);
    }
  }

  // There is one sorted arrangement of a set of records.
  lemma {:induction false} SortedUnique<V>(s: seq<(string, V)>, t: seq<(string, V)>)
    requires SortedKeys(s) && SortedKeys(t)
    requires forall x :: x in s <==> x in t
    ensures s == t
  {
    assert (s != [] ==> s[0] in s) && (t != [] ==> t[0] in t);
    if s != [] {
      SortedHeadIsLeast(s, t[0]);
      SortedHeadIsLeast(t, s[0]);
      if s[0] != t[0] {
        LessTransitive(s[0].0, t[0].0, s[0].0);
        LessIrreflexive(s[0].0);
      }
      SortedTailMembers(s);
      SortedTailMembers(t);
      SortedUnique(s[1..], t[1..]);
    }
  }

  lemma SortedTailMembers<V>(s: seq<(string, V)>)
    requires SortedKeys(s) && s != []
    ensures forall x :: x in s[1..] <==> x in s && x != s[0]
  {
    SortedDistinct(s);
    assert s == [s[0]] + s[1..];
    forall x | x in s[1..] ensures x != s[0] {
      var rest := s[1..];
      var k :| 0 <= k < |rest| && rest[k] == x;
      assert s[k + 1] == x;
    }
  }

  lemma SortedHeadIsLeast<V>(s: seq<(string, V)>, x: (string, V))
    requires SortedKeys(s) && x in s
    ensures x == s[0] || Less(s[0].0, x.0)
  {
    var i :| 0 <= i < |s| && s[i] == x;
  }

  lemma SortOfSorted<V>(s: seq<(string, V)>)
    requires SortedKeys(s)
    ensures Sort(s) == s
  {
    SortedDistinct(s);
    SortSorts(s);
    forall x ensures x in Sort(s) <==> x in s {
      SortMember(s, x);
    }
    SortedUnique(Sort(s), s);
  }

  // ---------- Counting distinct records ----------

  ghost function Elements<V>(s: seq<(string, V)>): set<(string, V)> {
    set x | x in s
  }

  lemma {:induction false} DistinctCount<V>(s: seq<(string, V)>)
    requires DistinctKeys(s)
    ensures |Elements(s)| == |s|
  {
    if s != [] {
      DistinctCount(s[1..]);
      assert s == [s[0]] + s[1..];
      assert Elements(s) == {s[0]} + Elements(s[1..]);
      assert s[0] !in s[1..];
    }
  }

  // Two lists of records of one length, one inside the other, hold the same records.
  lemma SameElements<V>(s: seq<(string, V)>, t: seq<(string, V)>)
    requires DistinctKeys(s) && DistinctKeys(t) && |s| == |t|
    requires forall x :: x in s ==> x in t
    ensures forall x :: x in s <==> x in t
  {
    DistinctCount(s);
    DistinctCount(t);
    var a, b := Elements(s), Elements(t);
    assert a <= b;
    if exists x :: x in b && x !in a {
      var x :| x in b && x !in a;
      assert a <= b - {x};
      SubsetCount(a, b - {x});
    }
    assert b <= a;
    forall x | x in t ensures x in s {
      assert x in b;
    }
  }

  lemma SubsetCount<T>(a: set<T>, b: set<T>)
    requires a <= b
    ensures |a| <= |b|
  {
    assert b == a + (b - a);
  }
}
