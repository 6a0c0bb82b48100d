/**
 * The `java.util` maps the error model passes around.
 *
 * A `Map<String, String>` received from a caller is modelled as its entries in
 * iteration order, each key and value possibly null (`seq<Entry>`). The
 * immutable copy `Map.copyOf` makes of it keeps only its contents, so it is a
 * Dafny `map`. A `LinkedHashMap<String, String>` the code fills itself never
 * holds null and keeps insertion order, so it is a sequence of pairs with
 * distinct keys (`LinkedMap`).
 */
module JavaMaps {

  import opened JavaLang

  /** One entry of a `Map<String, String>`; `None` stands for null. */
  type Entry = (Option<string>, Option<string>)

  predicate DistinctKeys<K(==), V>(m: seq<(K, V)>) {
    forall i, j :: 0 <= i < j < |m| ==> m[i].0 != m[j].0
  }

  predicate HasNull(m: seq<Entry>) {
    exists i :: 0 <= i < |m| && (m[i].0.None? || m[i].1.None?)
  }

  /** `Map.copyOf` of a map without nulls: an unordered map with the same entries. */
  function CopyOf(m: seq<Entry>): (r: map<string, string>)
    requires !HasNull(m)
    ensures forall k :: k in r <==> exists i :: 0 <= i < |m| && m[i].0 == Some(k)
  {
    if m == [] then map[]
    else
      assert forall i :: 0 <= i < |m| - 1 ==> m[..|m| - 1][i] == m[i];
      CopyOf(m[..|m| - 1])[m[|m| - 1].0.value := m[|m| - 1].1.value]
  }

  /** With distinct keys (as in every Java map) the copy holds each entry's own value. */
  lemma {:induction false} CopyOfAt(m: seq<Entry>, i: nat)
    requires !HasNull(m) && DistinctKeys(m) && i < |m|
    ensures m[i].0.value in CopyOf(m) && CopyOf(m)[m[i].0.value] == m[i].1.value
    decreases |m|
  {
    if i < |m| - 1 {
      var p := m[..|m| - 1];
      assert p[i] == m[i];
      assert forall j :: 0 <= j < |p| ==> p[j] == m[j];
      CopyOfAt(p, i);
    }
  }

  /** A `LinkedHashMap<String, String>` without nulls: its entries in insertion order. */
  type LinkedMap = seq<(string, string)>

  /** Position of the entry holding key `k`. */
  function KeyIndex(m: LinkedMap, k: string): (r: Option<nat>)
    ensures r.Some? ==> r.value < |m| && m[r.value].0 == k && forall j :: 0 <= j < r.value ==> m[j].0 != k
    ensures r.None? ==> forall j :: 0 <= j < |m| ==> m[j].0 != k
  {
    if m == [] then None
    else if m[0].0 == k then Some(0)
    else match KeyIndex(m[1..], k)
      case None => None
      case Some(i) => Some(i + 1)
  }

  /** Two maps with the same keys in the same order place every key alike. */
  lemma SameKeysSameIndex(m: LinkedMap, r: LinkedMap, k: string)
    requires |m| == |r| && forall i :: 0 <= i < |m| ==> m[i].0 == r[i].0
    ensures KeyIndex(m, k) == KeyIndex(r, k)
  {
  }

  /** `Map.get`. */
  function Lookup(m: LinkedMap, k: string): (r: Option<string>)
    ensures r.None? <==> forall i :: 0 <= i < |m| ==> m[i].0 != k
    ensures r.Some? ==> exists i :: 0 <= i < |m| && m[i] == (k, r.value)
  {
    match KeyIndex(m, k)
    case None => None
    case Some(i) => assert m[i] == (k, m[i].1); Some(m[i].1)
  }

  /**
   * `LinkedHashMap.put`: a new key is appended; an existing key gets the new
   * value and keeps its position.
   */
  function Put(m: LinkedMap, k: string, v: string): (r: LinkedMap)
    ensures KeyIndex(m, k).None? ==> r == m + [(k, v)]
    ensures KeyIndex(m, k).Some? ==> |r| == |m| && forall i :: 0 <= i < |m| ==> r[i].0 == m[i].0
  {
    match KeyIndex(m, k)
    case None => m + [(k, v)]
    case Some(i) => m[i := (k, v)]
  }

  lemma {:induction false} PutLookup(m: LinkedMap, k: string, v: string, k': string)
    ensures Lookup(Put(m, k, v), k') == if k' == k then Some(v) else Lookup(m, k')
  {
    var r := Put(m, k, v);
    match KeyIndex(m, k)
    case None =>
      assert forall i :: 0 <= i < |m| ==> r[i] == m[i];
      assert r[|m|] == (k, v);
    case Some(i) =>
      SameKeysSameIndex(m, r, k');
  }

  lemma {:induction false} PutKeepsDistinct(m: LinkedMap, k: string, v: string)
    requires DistinctKeys(m)
    ensures DistinctKeys(Put(m, k, v))
  {
  }

  /**
   * Insertion into the map `Collectors.toMap` builds with the merge function
   * `(existing, replacement) -> existing`: a key already present keeps its value.
   */
  function PutIfAbsent(m: LinkedMap, k: string, v: string): (r: LinkedMap)
    ensures KeyIndex(m, k).Some? ==> r == m
    ensures KeyIndex(m, k).None? ==> r == m + [(k, v)]
  {
    if KeyIndex(m, k).Some? then m else Put(m, k, v)
  }

  lemma {:induction false} PutIfAbsentLookup(m: LinkedMap, k: string, v: string, k': string)
    ensures Lookup(PutIfAbsent(m, k, v), k') ==
            if k' == k && Lookup(m, k).None? then Some(v) else Lookup(m, k')
  {
    if KeyIndex(m, k).None? {
      PutLookup(m, k, v, k');
    }
  }

  /** A sequence of `put` calls, in order. */
  function PutAll(m: LinkedMap, entries: seq<(string, string)>): LinkedMap
  {
    if entries == [] then m
    else
      var last := entries[|entries| - 1];
      Put(PutAll(m, entries[..|entries| - 1]), last.0, last.1)
  }

  /** One more `put` extends the sequence of calls by one entry. */
  lemma PutAllStep(m: LinkedMap, entries: seq<(string, string)>, i: nat)
    requires i < |entries|
    ensures PutAll(m, entries[..i + 1]) == Put(PutAll(m, entries[..i]), entries[i].0, entries[i].1)
  {
    assert entries[..i + 1][..i] == entries[..i];
  }

  /** Two runs of `put` calls in a row are one run over both. */
  lemma {:induction false} PutAllAppend(m: LinkedMap, first: seq<(string, string)>, second: seq<(string, string)>)
    ensures PutAll(m, first + second) == PutAll(PutAll(m, first), second)
    decreases |second|
  {
    if second != [] {
      var n := |second| - 1;
      assert (first + second)[..|first + second| - 1] == first + second[..n];
      PutAllAppend(m, first, second[..n]);
    } else {
      assert first + second == first;
    }
  }

  /** A sequence of first-wins insertions, in order. */
  function PutAllIfAbsent(m: LinkedMap, entries: seq<(string, string)>): LinkedMap
  {
    if entries == [] then m
    else
      var last := entries[|entries| - 1];
      PutIfAbsent(PutAllIfAbsent(m, entries[..|entries| - 1]), last.0, last.1)
  }

  lemma {:induction false} PutAllKeepsDistinct(m: LinkedMap, entries: seq<(string, string)>)
    requires DistinctKeys(m)
    ensures DistinctKeys(PutAll(m, entries)) && DistinctKeys(PutAllIfAbsent(m, entries))
    decreases |entries|
  {
    if entries != [] {
      var n := |entries| - 1;
      PutAllKeepsDistinct(m, entries[..n]);
      PutKeepsDistinct(PutAll(m, entries[..n]), entries[n].0, entries[n].1);
      PutKeepsDistinct(PutAllIfAbsent(m, entries[..n]), entries[n].0, entries[n].1);
    }
  }

  /** A key no entry mentions keeps what the map held before. */
  lemma {:induction false} PutAllUntouched(m: LinkedMap, entries: seq<(string, string)>, k: string)
    requires forall i :: 0 <= i < |entries| ==> entries[i].0 != k
    ensures Lookup(PutAll(m, entries), k) == Lookup(m, k)
    ensures Lookup(PutAllIfAbsent(m, entries), k) == Lookup(m, k)
    decreases |entries|
  {
    if entries != [] {
      var n := |entries| - 1;
      PutAllUntouched(m, entries[..n], k);
      PutLookup(PutAll(m, entries[..n]), entries[n].0, entries[n].1, k);
      PutIfAbsentLookup(PutAllIfAbsent(m, entries[..n]), entries[n].0, entries[n].1, k);
    }
  }

  /** With `put`, the last entry for a key decides its value. */
  lemma {:induction false} PutAllLastWins(m: LinkedMap, entries: seq<(string, string)>, i: nat)
    requires i < |entries|
    requires forall j :: i < j < |entries| ==> entries[j].0 != entries[i].0
    ensures Lookup(PutAll(m, entries), entries[i].0) == Some(entries[i].1)
    decreases |entries|
  {
    var n := |entries| - 1;
    var p := entries[..n];
    if i < n {
      assert p[i] == entries[i];
      PutAllLastWins(m, p, i);
    }
    PutLookup(PutAll(m, p), entries[n].0, entries[n].1, entries[i].0);
  }

  /** With first-wins insertion, the first entry for a key (absent before) decides its value. */
  lemma {:induction false} PutAllIfAbsentFirstWins(m: LinkedMap, entries: seq<(string, string)>, i: nat)
    requires i < |entries| && Lookup(m, entries[i].0).None?
    requires forall j :: 0 <= j < i ==> entries[j].0 != entries[i].0
    ensures Lookup(PutAllIfAbsent(m, entries), entries[i].0) == Some(entries[i].1)
    decreases |entries|
  {
    var n := |entries| - 1;
    var p := entries[..n];
    var k := entries[i].0;
    if i < n {
      assert p[i] == entries[i];
      PutAllIfAbsentFirstWins(m, p, i);
    } else {
      assert forall j :: 0 <= j < |p| ==> p[j].0 != k;
      PutAllUntouched(m, p, k);
    }
    PutIfAbsentLookup(PutAllIfAbsent(m, p), entries[n].0, entries[n].1, k);
  }

  /** The Java-map view of a linked map: the same entries, none of them null. */
  function Lift(m: LinkedMap): (r: seq<Entry>)
    ensures |r| == |m| && !HasNull(r)
    ensures forall i :: 0 <= i < |m| ==> r[i] == (Some(m[i].0), Some(m[i].1))
    ensures DistinctKeys(m) ==> DistinctKeys(r)
  {
    seq(|m|, i requires 0 <= i < |m| => (Some(m[i].0), Some(m[i].1)))
  }

  /** `Map.copyOf` of a linked map answers every lookup as the linked map does. */
  lemma CopyOfLift(m: LinkedMap, k: string)
    requires DistinctKeys(m)
    ensures k in CopyOf(Lift(m)) <==> Lookup(m, k).Some?
    ensures k in CopyOf(Lift(m)) ==> CopyOf(Lift(m))[k] == Lookup(m, k).value
  {
    if Lookup(m, k).Some? {
      var i :| 0 <= i < |m| && m[i] == (k, Lookup(m, k).value);
      CopyOfAt(Lift(m), i);
    }
  }
}
