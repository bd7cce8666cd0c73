/**
 * A Python `dict` with string keys, as an association list in insertion
 * order: iterating over `items()` visits the pairs in this order, assigning
 * to a key that is already present replaces its value where it stands, and
 * assigning to a new key appends it at the end.
 */
module PyDict {
  import opened Wrappers

  type Dict<V> = seq<(string, V)>

  predicate Distinct<T(==)>(s: seq<T>) {
    forall i, j :: 0 <= i < j < |s| ==> s[i] != s[j]
  }

  function Keys<V>(d: Dict<V>): (ks: seq<string>)
    ensures |ks| == |d|
    ensures forall i :: 0 <= i < |d| ==> ks[i] == d[i].0
  {
    seq(|d|, i requires 0 <= i < |d| => d[i].0)
  }

  /** `d.get(key)`: the value stored under the first occurrence of `key`. */
  function Get<V>(d: Dict<V>, key: string): (r: Option<V>)
    ensures r.None? <==> key !in Keys(d)
    ensures r.Some? ==> (key, r.value) in d
  {
    if d == [] then None
    else if d[0].0 == key then Some(d[0].1)
    else
      assert Keys(d) == [d[0].0] + Keys(d[1..]);
      Get(d[1..], key)
  }

  /** `d[key] = value`: replaces the value where the key stands, or appends a new entry. */
  function Put<V>(d: Dict<V>, key: string, value: V): (r: Dict<V>)
    ensures key in Keys(d) ==> Keys(r) == Keys(d)
    ensures key !in Keys(d) ==> Keys(r) == Keys(d) + [key]
  {
    if d == [] then [(key, value)]
    else
      assert d == [d[0]] + d[1..];
      KeysCons(d[0], d[1..]);
      if d[0].0 == key then
        KeysCons((key, value), d[1..]);
        [(key, value)] + d[1..]
      else
        var tail := Put(d[1..], key, value);
        KeysCons(d[0], tail);
        [d[0]] + tail
  }

  lemma KeysCons<V>(entry: (string, V), d: Dict<V>)
    ensures Keys([entry] + d) == [entry.0] + Keys(d)
  {
  }

  /** After `d[key] = value`, looking up `key` gives `value`. */
  lemma {:induction false} GetPut<V>(d: Dict<V>, key: string, value: V)
    ensures Get(Put(d, key, value), key) == Some(value)
  {
    if d != [] && d[0].0 != key {
      var tail := Put(d[1..], key, value);
      assert ([d[0]] + tail)[1..] == tail;
      GetPut(d[1..], key, value);
    }
  }

  /** `d[key] = value` leaves the lookup of every other key as it was. */
  lemma {:induction false} GetPutOther<V>(d: Dict<V>, key: string, value: V, other: string)
    requires other != key
    ensures Get(Put(d, key, value), other) == Get(d, other)
  {
    if d != [] && d[0].0 != key {
      var tail := Put(d[1..], key, value);
      assert ([d[0]] + tail)[1..] == tail;
      GetPutOther(d[1..], key, value, other);
    } else if d != [] {
      assert ([(key, value)] + d[1..])[1..] == d[1..];
    }
  }

  /** The set of elements of a sequence. */
  function Elements<T>(s: seq<T>): set<T> {
    set x | x in s
  }

  /** A sequence without repetitions has as many elements as its set of elements. */
  lemma {:induction false} DistinctCardinality<T>(s: seq<T>)
    requires Distinct(s)
    ensures |Elements(s)| == |s|
  {
    if s != [] {
      var init, last := s[..|s| - 1], s[|s| - 1];
      assert Elements(s) == Elements(init) + {last};
      assert last !in Elements(init);
      DistinctCardinality(init);
    }
  }

  /** Five pairwise different strings. */
  predicate FiveDistinct(n0: string, n1: string, n2: string, n3: string, n4: string) {
    n0 != n1 && n0 != n2 && n0 != n3 && n0 != n4 && n1 != n2 && n1 != n3 && n1 != n4 && n2 != n3 && n2 != n4 && n3 != n4
  }

  /** Recording five distinct names one after another: each name then holds the result recorded under it. */
  lemma FiveLookups<V>(n0: string, n1: string, n2: string, n3: string, n4: string,
                       s0: Dict<V>, s1: Dict<V>, s2: Dict<V>, s3: Dict<V>, s4: Dict<V>, s5: Dict<V>,
                       r1: V, r2: V, r3: V, r4: V, r5: V)
    requires FiveDistinct(n0, n1, n2, n3, n4)
    requires s1 == Put(s0, n0, r1) && s2 == Put(s1, n1, r2) && s3 == Put(s2, n2, r3)
    requires s4 == Put(s3, n3, r4) && s5 == Put(s4, n4, r5)
    ensures Get(s5, n0) == Some(r1) && Get(s5, n1) == Some(r2) && Get(s5, n2) == Some(r3)
    ensures Get(s5, n3) == Some(r4) && Get(s5, n4) == Some(r5)
  {
    GetPut(s0, n0, r1);
    GetPutOther(s1, n1, r2, n0);
    GetPutOther(s2, n2, r3, n0);
    GetPutOther(s3, n3, r4, n0);
    GetPutOther(s4, n4, r5, n0);
    GetPut(s1, n1, r2);
    GetPutOther(s2, n2, r3, n1);
    GetPutOther(s3, n3, r4, n1);
    GetPutOther(s4, n4, r5, n1);
    GetPut(s2, n2, r3);
    GetPutOther(s3, n3, r4, n2);
    GetPutOther(s4, n4, r5, n2);
    GetPut(s3, n3, r4);
    GetPutOther(s4, n4, r5, n3);
    GetPut(s4, n4, r5);
  }

  /** Keys whose lookups succeed are keys of the dict. */
  lemma FiveFound<V>(n0: string, n1: string, n2: string, n3: string, n4: string, d: Dict<V>)
    requires Get(d, n0).Some? && Get(d, n1).Some? && Get(d, n2).Some? && Get(d, n3).Some? && Get(d, n4).Some?
    ensures n0 in Keys(d) && n1 in Keys(d) && n2 in Keys(d) && n3 in Keys(d) && n4 in Keys(d)
  {
  }

  /**
   * A dict whose keys are distinct and among five distinct names, and which
   * holds each of them, has exactly five entries.
   */
  lemma OneEntryPerName<V>(n0: string, n1: string, n2: string, n3: string, n4: string, d: Dict<V>)
    requires FiveDistinct(n0, n1, n2, n3, n4) && Distinct(Keys(d))
    requires forall k :: k in Keys(d) ==> k in [n0, n1, n2, n3, n4]
    requires n0 in Keys(d) && n1 in Keys(d) && n2 in Keys(d) && n3 in Keys(d) && n4 in Keys(d)
    ensures |d| == 5
  {
    var names := [n0, n1, n2, n3, n4];
    assert Distinct(names);
    SameElementsSameLength(Keys(d), names);
  }

  /** Recording five distinct names into an empty dict lists them in the order recorded. */
  lemma KeysFromEmpty<V>(n0: string, n1: string, n2: string, n3: string, n4: string,
                         s0: Dict<V>, s1: Dict<V>, s2: Dict<V>, s3: Dict<V>, s4: Dict<V>, s5: Dict<V>,
                         r1: V, r2: V, r3: V, r4: V, r5: V)
    requires FiveDistinct(n0, n1, n2, n3, n4) && s0 == []
    requires s1 == Put(s0, n0, r1) && s2 == Put(s1, n1, r2) && s3 == Put(s2, n2, r3)
    requires s4 == Put(s3, n3, r4) && s5 == Put(s4, n4, r5)
    ensures Keys(s5) == [n0, n1, n2, n3, n4]
  {
    assert Keys(s0) == [];
    assert Keys(s1) == [n0];
    assert Keys(s2) == [n0, n1];
    assert Keys(s3) == [n0, n1, n2];
    assert Keys(s4) == [n0, n1, n2, n3];
  }

  /** Two sequences without repetitions that hold the same elements have the same length. */
  lemma SameElementsSameLength<T>(a: seq<T>, b: seq<T>)
    requires Distinct(a) && Distinct(b)
    requires forall x :: x in a <==> x in b
    ensures |a| == |b|
  {
    assert Elements(a) == Elements(b);
    DistinctCardinality(a);
    DistinctCardinality(b);
  }
}
