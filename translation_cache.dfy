/**
 * The translation cache of the content script (content.js:9, 73-79): a
 * JavaScript `Map` from caption text to its translation, which iterates in
 * insertion order and is capped by deleting its first key.
 */
module TranslationCache {

  /** The cap on the number of cached translations (content.js:76). */
  const Capacity: nat := 500

  /**
   * A `Map<string, string>`: `order` lists its keys in iteration order,
   * `entries` is its key/value table.
   */
  datatype Cache = Cache(order: seq<string>, entries: map<string, string>)

  predicate Distinct(s: seq<string>) {
    forall i, j :: 0 <= i < j < |s| ==> s[i] != s[j]
  }

  /** Each key is listed once, and the list holds exactly the keys of the table. */
  ghost predicate Valid(c: Cache) {
    Distinct(c.order) && forall k :: k in c.order <==> k in c.entries
  }

  /** The invariant the content script keeps: well formed and within the cap. */
  ghost predicate Bounded(c: Cache) {
    Valid(c) && |c.order| <= Capacity
  }

  /** `new Map()`. */
  function Empty(): (c: Cache)
    ensures Bounded(c) && c.entries == map[]
  {
    Cache([], map[])
  }

  /** `Map.prototype.set`: a new key goes last, a present key keeps its place. */
  function Set(c: Cache, k: string, v: string): (r: Cache)
    ensures Valid(c) ==> Valid(r)
    ensures r.entries == c.entries[k := v]
    ensures r.order == if k in c.entries then c.order else c.order + [k]
  {
    if k in c.entries then Cache(c.order, c.entries[k := v])
    else Cache(c.order + [k], c.entries[k := v])
  }

  /** Deleting the first key that `keys()` yields (content.js:77-78). */
  function DeleteOldest(c: Cache): (r: Cache)
    requires c.order != []
    ensures Valid(c) ==> Valid(r)
    ensures r.order == c.order[1..] && r.entries == c.entries - {c.order[0]}
  {
    Cache(c.order[1..], c.entries - {c.order[0]})
  }

  /** True when putting `k` overfills the cache, so that its oldest key is evicted. */
  predicate Overfills(c: Cache, k: string) {
    k !in c.entries && |c.order| == Capacity
  }

  /**
   * What a successful translation does to the cache (content.js:73-79):
   * store it, then delete the oldest key if the cache went over its cap.
   * The cache stays within the cap, the new entry is present, and no other
   * entry changes; the only key that can disappear is the oldest one, and
   * it disappears exactly when a new key arrives at a full cache. (Every
   * cache the content script builds is bounded; see `Bounded`.)
   */
  function Put(c: Cache, k: string, v: string): (r: Cache)
    ensures Bounded(c) ==> Bounded(r)
    ensures Bounded(c) ==>
      r.entries == (if Overfills(c, k) then c.entries - {c.order[0]} else c.entries)[k := v]
    ensures Bounded(c) ==>
      r.order == if k in c.entries then c.order
                 else if Overfills(c, k) then c.order[1..] + [k]
                 else c.order + [k]
  {
    var s := Set(c, k, v);
    if |s.order| > Capacity then
      assert Bounded(c) ==> c.order != [] && s.order[0] == c.order[0] != k;
      DeleteOldest(s)
    else
      s
  }

  /** The keys of a list of (text, translation) pairs. */
  function KeysOf(kvs: seq<(string, string)>): (ks: seq<string>)
    ensures |ks| == |kvs| && forall i :: 0 <= i < |kvs| ==> ks[i] == kvs[i].0
  {
    seq(|kvs|, i requires 0 <= i < |kvs| => kvs[i].0)
  }

  /** The cache after the translations `kvs` have succeeded one after another. */
  function PutAll(c: Cache, kvs: seq<(string, string)>): (r: Cache)
    requires Bounded(c)
    ensures Bounded(r)
    decreases |kvs|
  {
    if kvs == [] then c
    else
      var last := kvs[|kvs| - 1];
      Put(PutAll(c, kvs[..|kvs| - 1]), last.0, last.1)
  }

  function Min(a: nat, b: nat): nat {
    if a <= b then a else b
  }

  lemma DistinctNotInPrefix(ks: seq<string>, lo: nat, n: nat)
    requires Distinct(ks) && lo <= n < |ks|
    ensures ks[n] !in ks[lo..n]
  {
  }

  /** One more distinct text put into a cache holding the newest of the earlier ones. */
  lemma FillStep(prev: Cache, ks: seq<string>, v: string)
    requires Bounded(prev) && |ks| > 0 && ks[|ks| - 1] !in prev.order
    requires prev.order == ks[|ks| - 1 - Min(|ks| - 1, Capacity)..|ks| - 1]
    ensures Put(prev, ks[|ks| - 1], v).order == ks[|ks| - Min(|ks|, Capacity)..]
  {
    var n := |ks|;
    if |prev.order| == Capacity {
      FillStepFull(prev, ks, v);
    } else {
      FillStepRoom(prev, ks, v);
    }
  }

  lemma FillStepFull(prev: Cache, ks: seq<string>, v: string)
    requires Bounded(prev) && |ks| > 0 && ks[|ks| - 1] !in prev.order
    requires |prev.order| == Capacity && |ks| > Capacity
    requires prev.order == ks[|ks| - 1 - Capacity..|ks| - 1]
    ensures Put(prev, ks[|ks| - 1], v).order == ks[|ks| - Capacity..]
  {
    var n := |ks|;
    var k := ks[n - 1];
    assert k !in prev.entries;
    assert Overfills(prev, k);
    assert Put(prev, k, v).order == prev.order[1..] + [k];
    SlideWindow(ks, n - 1 - Capacity);
  }

  /** Dropping the first of a window and adding the next element slides it by one. */
  lemma SlideWindow(ks: seq<string>, a: nat)
    requires a + 1 < |ks|
    ensures ks[a..|ks| - 1][1..] + [ks[|ks| - 1]] == ks[a + 1..]
  {
    assert ks[a..|ks| - 1][1..] == ks[a + 1..|ks| - 1];
  }

  lemma FillStepRoom(prev: Cache, ks: seq<string>, v: string)
    requires Bounded(prev) && |ks| > 0 && ks[|ks| - 1] !in prev.order
    requires |prev.order| < Capacity
    requires prev.order == ks[..|ks| - 1]
    ensures Put(prev, ks[|ks| - 1], v).order == ks
  {
    var n := |ks|;
    assert Put(prev, ks[n - 1], v).order == prev.order + [ks[n - 1]];
    assert ks[..n - 1] + [ks[n - 1]] == ks;
  }

  /**
   * First in, first out: after distinct texts are translated into an empty
   * cache, it holds the most recent `Capacity` of them, oldest first.
   */
  lemma {:induction false} FillFromEmpty(kvs: seq<(string, string)>)
    requires Distinct(KeysOf(kvs))
    ensures PutAll(Empty(), kvs).order == KeysOf(kvs)[|kvs| - Min(|kvs|, Capacity)..]
  {
    if kvs != [] {
      var n := |kvs|;
      var init := kvs[..n - 1];
      var ks := KeysOf(kvs);
      assert KeysOf(init) == ks[..n - 1];
      FillFromEmpty(init);
      var prev := PutAll(Empty(), init);
      assert prev.order == ks[n - 1 - Min(n - 1, Capacity)..n - 1];
      assert PutAll(Empty(), kvs) == Put(prev, ks[n - 1], kvs[n - 1].1);
      DistinctNotInPrefix(ks, n - 1 - Min(n - 1, Capacity), n - 1);
      FillStep(prev, ks, kvs[n - 1].1);
    } else {
      assert PutAll(Empty(), kvs) == Empty();
    }
  }

  lemma DistinctInSuffix(ks: seq<string>, from: nat, i: nat)
    requires Distinct(ks) && from <= |ks| && i < |ks|
    ensures ks[i] in ks[from..] <==> i >= from
  {
    if i >= from {
      assert ks[from..][i - from] == ks[i];
    }
  }

  /**
   * After distinct texts are translated into an empty cache, a text is
   * still cached exactly when it is among the most recent `Capacity`; so
   * after 501 insertions the first is gone and the other 500 remain.
   */
  lemma FillKeepsNewest(kvs: seq<(string, string)>, filled: Cache)
    requires Distinct(KeysOf(kvs)) && filled == PutAll(Empty(), kvs)
    ensures forall i :: 0 <= i < |kvs| ==> (kvs[i].0 in filled.entries <==> i >= |kvs| - Capacity)
  {
    FillFromEmpty(kvs);
    NewestRemain(filled, kvs);
  }

  lemma NewestRemain(r: Cache, kvs: seq<(string, string)>)
    requires Valid(r) && Distinct(KeysOf(kvs))
    requires r.order == KeysOf(kvs)[|kvs| - Min(|kvs|, Capacity)..]
    ensures forall i :: 0 <= i < |kvs| ==> (kvs[i].0 in r.entries <==> i >= |kvs| - Capacity)
  {
    var ks := KeysOf(kvs);
    var from := |kvs| - Min(|kvs|, Capacity);
    forall i | 0 <= i < |kvs|
      ensures kvs[i].0 in r.entries <==> i >= |kvs| - Capacity
    {
      DistinctInSuffix(ks, from, i);
      assert ks[i] == kvs[i].0;
    }
  }
}
