/**
 * The bucket abstraction: how the values inserted under one key are combined
 * into the single bucket kept for that key.  A strategy is a pair of
 * operations, `create` (seed a bucket from the first value) and `accumulate`
 * (fold a later value into an existing bucket).
 */
module Buckets {

  /** A bucket strategy over values of type V and buckets of type B. */
  datatype Bucket<!V, !B> = Bucket(create: V -> B, accumulate: (B, V) -> B)

  /** The list strategy: a bucket holds its values in insertion order. */
  function Appending<V>(): (bucket: Bucket<V, seq<V>>)
  {
    Bucket(v => [v], (b, v) => b + [v])
  }

  /**
   * The count strategy that IntBucket is taken to be (its source is not part of
   * this model): create(v) = v and accumulate(b, v) = b + v.
   */
  function Counting(): (bucket: Bucket<int, int>)
  {
    Bucket(v => v, (b, v) => b + v)
  }

  /** The bucket built by creating from vs[0] and then accumulating vs[1..] in order. */
  function Fold<V, B>(bucket: Bucket<V, B>, vs: seq<V>): (b: B)
    requires |vs| > 0
    decreases |vs|
  {
    if |vs| == 1 then bucket.create(vs[0])
    else bucket.accumulate(Fold(bucket, vs[..|vs| - 1]), vs[|vs| - 1])
  }

  function Sum(vs: seq<int>): (total: int)
    decreases |vs|
  {
    if vs == [] then 0 else Sum(vs[..|vs| - 1]) + vs[|vs| - 1]
  }

  /** Folding values with the list strategy yields exactly those values, in call order. */
  lemma {:induction false} AppendingFold<V>(vs: seq<V>)
    requires |vs| > 0
    ensures Fold(Appending(), vs) == vs
    decreases |vs|
  {
    if |vs| > 1 {
      AppendingFold(vs[..|vs| - 1]);
      assert vs[..|vs| - 1] + [vs[|vs| - 1]] == vs;
    }
  }

  /** Folding values with the count strategy yields their sum. */
  lemma {:induction false} CountingFold(vs: seq<int>)
    requires |vs| > 0
    ensures Fold(Counting(), vs) == Sum(vs)
    decreases |vs|
  {
    if |vs| == 1 {
      assert vs[..0] == [];
    } else {
      CountingFold(vs[..|vs| - 1]);
    }
  }
}
