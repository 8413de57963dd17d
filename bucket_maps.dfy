/**
 * The bucket map: a key -> bucket container that creates a bucket on the
 * first insertion under a key and accumulates into it on every later one.
 * The container itself is supplied by the caller (a HashMap for blocking, a
 * TreeMap for the tally), and the caller keeps its reference to it.
 */
module BucketMaps {
  import opened Buckets

  /** The mutable map a caller injects; only its key -> bucket contents are modelled. */
  class MutableMap<K(==), B> {
    var contents: map<K, B>

    constructor ()
      ensures contents == map[]
    {
      contents := map[];
    }

    method Put(k: K, b: B)
      modifies this
      ensures contents == old(contents)[k := b]
    {
      contents := contents[k := b];
    }
  }

  /** One insertion: create the bucket for a new key, accumulate into an existing one. */
  function Insert<K(==), V, B>(m: map<K, B>, bucket: Bucket<V, B>, k: K, v: V): (m': map<K, B>)
  {
    m[k := if k in m then bucket.accumulate(m[k], v) else bucket.create(v)]
  }

  /** The container after inserting the pairs of `kvs`, in order, into `m`. */
  function InsertAll<K(==), V, B>(m: map<K, B>, bucket: Bucket<V, B>, kvs: seq<(K, V)>): (m': map<K, B>)
    decreases |kvs|
  {
    if kvs == [] then m
    else Insert(InsertAll(m, bucket, kvs[..|kvs| - 1]), bucket, kvs[|kvs| - 1].0, kvs[|kvs| - 1].1)
  }

  /** The values inserted under `k`, in insertion order. */
  function ValuesAt<K(==), V>(kvs: seq<(K, V)>, k: K): (vs: seq<V>)
    decreases |kvs|
  {
    if kvs == [] then []
    else ValuesAt(kvs[..|kvs| - 1], k) + (if kvs[|kvs| - 1].0 == k then [kvs[|kvs| - 1].1] else [])
  }

  /**
   * The bucket-map invariant: starting from an empty container, a key is
   * present exactly when some value was inserted under it, and its bucket is
   * the fold of those values, in insertion order, through the strategy.
   */
  lemma {:induction false} InsertAllFolds<K, V, B>(bucket: Bucket<V, B>, kvs: seq<(K, V)>, k: K)
    ensures k in InsertAll(map[], bucket, kvs) <==> ValuesAt(kvs, k) != []
    ensures k in InsertAll(map[], bucket, kvs) ==>
              InsertAll(map[], bucket, kvs)[k] == Fold(bucket, ValuesAt(kvs, k))
    decreases |kvs|
  {
    if kvs != [] {
      var init, last := kvs[..|kvs| - 1], kvs[|kvs| - 1];
      InsertAllFolds(bucket, init, k);
      var before := ValuesAt(init, k);
      if last.0 != k {
        assert ValuesAt(kvs, k) == before + [] == before;
      } else if before == [] {
        assert ValuesAt(kvs, k) == [last.1];
      } else {
        var after := before + [last.1];
        assert ValuesAt(kvs, k) == after;
        assert after[..|after| - 1] == before;
      }
    }
  }

  class BucketMap<K(==), V, B> {
    const container: MutableMap<K, B>
    const bucket: Bucket<V, B>
    /** What the container held when it was handed over. */
    ghost const initial: map<K, B>
    /** Every (key, value) passed to Add, in call order. */
    ghost var inserted: seq<(K, V)>

    ghost predicate Valid()
      reads this, container
    {
      container.contents == InsertAll(initial, bucket, inserted)
    }

    constructor (container: MutableMap<K, B>, bucket: Bucket<V, B>)
      ensures Valid()
      ensures this.container == container && this.bucket == bucket
      ensures initial == container.contents && inserted == []
    {
      this.container := container;
      this.bucket := bucket;
      initial := container.contents;
      inserted := [];
    }

    /** Creates the bucket for a new key, otherwise accumulates into the existing one. */
    method Add(key: K, val: V)
      requires Valid()
      modifies this, container
      ensures Valid()
      ensures inserted == old(inserted) + [(key, val)]
      ensures key in old(container.contents) ==>
                container.contents == old(container.contents)[key := bucket.accumulate(old(container.contents)[key], val)]
      ensures key !in old(container.contents) ==>
                container.contents == old(container.contents)[key := bucket.create(val)]
    {
      if key in container.contents {
        container.Put(key, bucket.accumulate(container.contents[key], val));
      } else {
        container.Put(key, bucket.create(val));
      }
      inserted := inserted + [(key, val)];
      assert inserted[..|inserted| - 1] == old(inserted);
    }

    /** The live container, not a copy: later Adds show through it. */
    function Map(): (m: MutableMap<K, B>)
      reads this
      ensures m == container
    {
      container
    }
  }
}
