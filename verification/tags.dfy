/** The Vision side of PlaceClassificationService: turning classification
    observations into a label -> confidence dictionary filtered by the 2%
    threshold, and selecting the ten most confident entries of such a
    dictionary.
 */
module Tags {

  /** One `VNClassificationObservation`: a label and its confidence. */
  datatype Observation = Observation(identifier: string, confidence: real)

  /** A `(tag: String, confidence: Double)` pair. */
  datatype WeightedTag = WeightedTag(tag: string, confidence: real)

  /** `confidenceThreshold`, 0.02. */
  const ConfidenceThreshold: real := 2.0 / 100.0

  /** How many tags are kept: `.prefix(10)`. */
  const TopTagCount: nat := 10

  predicate Passes(o: Observation) {
    o.confidence >= ConfidenceThreshold
  }

  /** Observation `i` passes the threshold and no later observation with the
      same identifier does, so its confidence is the one that survives. */
  ghost predicate LastPassing(results: seq<Observation>, i: int)
    requires 0 <= i < |results|
  {
    && Passes(results[i])
    && forall j :: i < j < |results| && results[j].identifier == results[i].identifier ==> !Passes(results[j])
  }

  /** Confidence `c` is what the last passing observation labelled `k` carries. */
  ghost predicate Survives(results: seq<Observation>, k: string, c: real) {
    exists i :: 0 <= i < |results| && results[i].identifier == k && results[i].confidence == c && LastPassing(results, i)
  }

  /** A later observation that does not overwrite `k` keeps `k`'s survivor. */
  lemma SurvivesExtend(results: seq<Observation>, o: Observation, k: string, c: real)
    requires Survives(results, k, c)
    requires k != o.identifier || !Passes(o)
    ensures Survives(results + [o], k, c)
  {
    var i :| 0 <= i < |results| && results[i].identifier == k && results[i].confidence == c && LastPassing(results, i);
    var s := results + [o];
    assert s[i] == results[i];
    assert LastPassing(s, i);
  }

  /** The loop of `getRawPredictions`: each observation at or above the
      threshold is stored under its identifier, overwriting an earlier entry
      with the same identifier; observations below the threshold are skipped. */
  function Threshold(results: seq<Observation>): (predictions: map<string, real>)
    ensures forall k :: k in predictions ==> predictions[k] >= ConfidenceThreshold
    ensures forall i :: 0 <= i < |results| && Passes(results[i]) ==> results[i].identifier in predictions
    ensures forall k :: k in predictions ==> Survives(results, k, predictions[k])
  {
    if |results| == 0 then map[]
    else
      var earlier := results[..|results| - 1];
      var o := results[|results| - 1];
      assert results == earlier + [o];
      var m := Threshold(earlier);
      if Passes(o) then
        var r := m[o.identifier := o.confidence];
        assert LastPassing(results, |results| - 1);
        forall k | k in r
          ensures Survives(results, k, r[k])
        {
          if k != o.identifier {
            SurvivesExtend(earlier, o, k, m[k]);
          }
        }
        r
      else
        forall k | k in m
          ensures Survives(results, k, m[k])
        {
          SurvivesExtend(earlier, o, k, m[k]);
        }
        m
  }

  /** `order` lists every key of `m` exactly once: it is the dictionary's
      iteration order, which Swift leaves unspecified and the model takes as
      an input. */
  predicate IsEnumeration(order: seq<string>, m: map<string, real>) {
    && (forall i :: 0 <= i < |order| ==> order[i] in m)
    && (forall k :: k in m ==> k in order)
    && (forall i, j :: 0 <= i < j < |order| ==> order[i] != order[j])
  }

  /** The dictionary's entries in iteration order. */
  function Entries(m: map<string, real>, order: seq<string>): (entries: seq<WeightedTag>)
    requires IsEnumeration(order, m)
    ensures |entries| == |order|
    ensures forall i :: 0 <= i < |entries| ==> entries[i] == WeightedTag(order[i], m[order[i]])
  {
    seq(|order|, i requires 0 <= i < |order| => WeightedTag(order[i], m[order[i]]))
  }

  /** No two elements carry the same tag. */
  predicate UniqueTags(s: seq<WeightedTag>) {
    forall i, j :: 0 <= i < j < |s| ==> s[i].tag != s[j].tag
  }

  /** Non-increasing by confidence. */
  predicate SortedByConfidence(s: seq<WeightedTag>) {
    forall i, j :: 0 <= i < j < |s| ==> s[i].confidence >= s[j].confidence
  }

  /** Inserts `t` into a sorted sequence, before the first element that is not
      more confident than it. */
  function Insert(t: WeightedTag, s: seq<WeightedTag>): (r: seq<WeightedTag>)
    requires SortedByConfidence(s)
    ensures SortedByConfidence(r)
    ensures multiset(r) == multiset(s) + multiset{t}
    ensures forall x :: x in r <==> x == t || x in s
  {
    if |s| == 0 then [t]
    else if s[0].confidence > t.confidence then
      var rest := Insert(t, s[1..]);
      assert s == [s[0]] + s[1..];
      SortedCons(s[0], rest);
      [s[0]] + rest
    else
      SortedCons(t, s);
      [t] + s
  }

  /** An element at least as confident as every element of a sorted sequence
      can be put in front of it. */
  lemma SortedCons(h: WeightedTag, s: seq<WeightedTag>)
    requires SortedByConfidence(s)
    requires forall x :: x in s ==> x.confidence <= h.confidence
    ensures SortedByConfidence([h] + s)
  {
    var r := [h] + s;
    forall i, j | 0 <= i < j < |r|
      ensures r[i].confidence >= r[j].confidence
    {
      assert r[j] == s[j - 1];
      if i > 0 {
        assert r[i] == s[i - 1];
      } else {
        assert s[j - 1] in s;
      }
    }
  }

  /** Insertion sort: `sorted { $0.value > $1.value }`, taking ties in input
      order. */
  function SortByConfidence(s: seq<WeightedTag>): (r: seq<WeightedTag>)
    ensures SortedByConfidence(r)
    ensures multiset(r) == multiset(s)
    ensures forall x :: x in r <==> x in s
  {
    if |s| == 0 then []
    else
      assert s == [s[0]] + s[1..];
      Insert(s[0], SortByConfidence(s[1..]))
  }

  /** Sorting keeps the number of entries. */
  lemma SortLength(s: seq<WeightedTag>)
    ensures |SortByConfidence(s)| == |s|
  {
    assert |multiset(SortByConfidence(s))| == |multiset(s)|;
  }

  /** Inserting a tag not yet present keeps tags unique. */
  lemma {:induction false} InsertUnique(t: WeightedTag, s: seq<WeightedTag>)
    requires SortedByConfidence(s) && UniqueTags(s)
    requires forall x :: x in s ==> x.tag != t.tag
    ensures UniqueTags(Insert(t, s))
  {
    if |s| > 0 && s[0].confidence > t.confidence {
      var rest := Insert(t, s[1..]);
      InsertUnique(t, s[1..]);
      forall x | x in rest
        ensures x.tag != s[0].tag
      {
        if x != t {
          assert x in s[1..];
          var k :| 0 <= k < |s[1..]| && s[1..][k] == x;
          assert s[k + 1] == x;
        }
      }
      var r := [s[0]] + rest;
      assert Insert(t, s) == r;
      forall i, j | 0 <= i < j < |r|
        ensures r[i].tag != r[j].tag
      {
        assert r[j] == rest[j - 1];
        if i > 0 {
          assert r[i] == rest[i - 1];
        } else {
          assert rest[j - 1] in rest;
        }
      }
    }
  }

  /** Sorting keeps tags unique. */
  lemma {:induction false} SortUnique(s: seq<WeightedTag>)
    requires UniqueTags(s)
    ensures UniqueTags(SortByConfidence(s))
  {
    if |s| > 0 {
      SortUnique(s[1..]);
      forall x | x in SortByConfidence(s[1..])
        ensures x.tag != s[0].tag
      {
        var k :| 1 <= k < |s| && s[k] == x;
      }
      InsertUnique(s[0], SortByConfidence(s[1..]));
    }
  }

  /** A duplicate-free sequence has as many elements as its set. */
  lemma {:induction false} DistinctCardinality(order: seq<string>)
    requires forall i, j :: 0 <= i < j < |order| ==> order[i] != order[j]
    ensures |set k | k in order| == |order|
  {
    if |order| > 0 {
      var rest := order[1..];
      DistinctCardinality(rest);
      assert (set k | k in order) == (set k | k in rest) + {order[0]};
      assert order[0] !in rest;
    }
  }

  /** An enumeration has one element per key. */
  lemma EnumerationLength(order: seq<string>, m: map<string, real>)
    requires IsEnumeration(order, m)
    ensures |order| == |m|
  {
    DistinctCardinality(order);
    assert (set k | k in order) == m.Keys;
  }

  /** The tags kept by `.sorted { $0.value > $1.value }.prefix(10)`. */
  function TopTags(m: map<string, real>, order: seq<string>): (top: seq<WeightedTag>)
    requires IsEnumeration(order, m)
  {
    var sorted := SortByConfidence(Entries(m, order));
    if |sorted| < TopTagCount then sorted else sorted[..TopTagCount]
  }

  /** Every element of a sorted sequence is in its first `n` elements (all
      of them when there are fewer) or is no more confident than the last of
      exactly `n` kept. */
  lemma PrefixCovers(sorted: seq<WeightedTag>, n: nat, x: WeightedTag)
    requires SortedByConfidence(sorted) && x in sorted && n > 0
    ensures var p := if |sorted| < n then sorted else sorted[..n];
      x in p || (|p| == n && x.confidence <= p[n - 1].confidence)
  {
    var k :| 0 <= k < |sorted| && sorted[k] == x;
    if n <= k {
      assert sorted[..n][n - 1] == sorted[n - 1];
    } else if n <= |sorted| {
      assert sorted[..n][k] == x;
    }
  }

  /** The first `n` elements (all of them when there are fewer) of a sorted
      sequence of distinct tags are sorted and distinct. */
  lemma PrefixShape(sorted: seq<WeightedTag>, n: nat)
    requires SortedByConfidence(sorted) && UniqueTags(sorted)
    ensures var p := if |sorted| < n then sorted else sorted[..n];
      && |p| == (if |sorted| < n then |sorted| else n)
      && SortedByConfidence(p)
      && UniqueTags(p)
  {
  }

  /** Every tag kept is an entry of the dictionary. */
  lemma TopTagsEntries(m: map<string, real>, order: seq<string>)
    requires IsEnumeration(order, m)
    ensures var top := TopTags(m, order);
      forall i :: 0 <= i < |top| ==> top[i].tag in m && m[top[i].tag] == top[i].confidence
  {
    var entries := Entries(m, order);
    var sorted := SortByConfidence(entries);
    var top := TopTags(m, order);
    assert top == sorted[..|top|];
    forall i | 0 <= i < |top|
      ensures top[i].tag in m && m[top[i].tag] == top[i].confidence
    {
      assert top[i] in multiset(sorted);
      assert top[i] in entries;
    }
  }

  /** A key left out is no more confident than the least confident kept one. */
  lemma TopTagsCoverage(m: map<string, real>, order: seq<string>)
    requires IsEnumeration(order, m)
    ensures var top := TopTags(m, order);
      forall k :: k in m ==>
        (exists i :: 0 <= i < |top| && top[i].tag == k)
        || (|top| == TopTagCount && m[k] <= top[|top| - 1].confidence)
  {
    var entries := Entries(m, order);
    var sorted := SortByConfidence(entries);
    var top := TopTags(m, order);
    forall k | k in m
      ensures (exists i :: 0 <= i < |top| && top[i].tag == k)
              || (|top| == TopTagCount && m[k] <= top[|top| - 1].confidence)
    {
      var j :| 0 <= j < |order| && order[j] == k;
      assert entries[j] in entries;
      PrefixCovers(sorted, TopTagCount, entries[j]);
      if entries[j] in top {
        var i :| 0 <= i < |top| && top[i] == entries[j];
        assert top[i].tag == k;
      }
    }
  }

  /** The selection has min(10, |m|) distinct tags, non-increasing by
      confidence. */
  lemma TopTagsShape(m: map<string, real>, order: seq<string>)
    requires IsEnumeration(order, m)
    ensures var top := TopTags(m, order);
      && |top| == (if |m| < TopTagCount then |m| else TopTagCount)
      && SortedByConfidence(top)
      && UniqueTags(top)
  {
    var entries := Entries(m, order);
    EnumerationLength(order, m);
    SortLength(entries);
    SortUnique(entries);
    PrefixShape(SortByConfidence(entries), TopTagCount);
  }

  /** The selection has min(10, |m|) elements, non-increasing by confidence,
      each a distinct entry of the dictionary; a key left out is no more
      confident than the least confident kept one. */
  lemma TopTagsSpec(m: map<string, real>, order: seq<string>)
    requires IsEnumeration(order, m)
    ensures var top := TopTags(m, order);
      && |top| == (if |m| < TopTagCount then |m| else TopTagCount)
      && SortedByConfidence(top)
      && UniqueTags(top)
      && (forall i :: 0 <= i < |top| ==> top[i].tag in m && m[top[i].tag] == top[i].confidence)
      && (forall k :: k in m ==>
            (exists i :: 0 <= i < |top| && top[i].tag == k)
            || (|top| == TopTagCount && m[k] <= top[|top| - 1].confidence))
  {
    TopTagsShape(m, order);
    TopTagsEntries(m, order);
    TopTagsCoverage(m, order);
  }
}
