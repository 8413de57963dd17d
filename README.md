# Accumulate-by-key core of a record-linkage engine

This project models, in Dafny, the bookkeeping at the centre of a probabilistic
record-linkage engine, and proves properties about it:

- **Buckets** (`buckets.dfy`). A bucket strategy is a pair `create` / `accumulate`.
  There are two strategies: list-append (`Appending`) and integer count
  (`Counting`, where `create(v) = v` and `accumulate(b, v) = b + v`).
- **ListBucket** (`list_bucket.dfy`). This is the list strategy as the source writes it.
  `create` allocates a linked list holding the first value. `accumulate` appends to the
  caller's list in place and returns that same list.
- **Bucket map** (`bucket_maps.dfy`). This is a key → bucket container supplied by the caller.
  `Add` creates a bucket on the first insert under a key and accumulates on later ones.
  A ghost history of insertions proves the invariant that each bucket is the fold of the
  values inserted under its key, in insertion order.
- **Records and blocking** (`records.dfy`). A record is immutable: it holds a copy of its field
  array, taken at construction, as a value no one can write to. It has a structural
  `Equals`. Blocking drains a record iterator into a fresh container, grouping the
  records by blocking key with the list strategy.
- **Incremental tally** (`counter.dfy`). This is a bucket map with the count strategy, keyed by
  the comparator's pattern index. `Tally()` hands out the comparator together with the live
  count container.

The record iterator is a class over the finite sequence of records it yields. After
those records it ends with `null`, or it fails with `RecordIteratorException` when the
storage fails. The comparator is a class holding a fixed function from a pair of records
to a pattern index.

Two points about the code itself that shape the model:

- `tally()` passes the live container to `Tally` (`IncrementalTally.java:28`). No copy is
  modelled, so the model's `Tally` shares the container with the accumulator.
- `block` fills an `AccumulatorMap` with a `ListAccumulator` (`Record.java:28-29`). The model
  uses its one generic bucket map with the list strategy, which has the create-or-append
  behaviour of those call sites.

## Model

| member | source | states |
|---|---|---|
| `ListBucket.LinkedList.Add` | src/main/java/gov/census/torch/util/ListBucket.java:16 | appending to a list adds the value at the end and changes nothing else |
| `ListBucket.Create` | src/main/java/gov/census/torch/util/ListBucket.java:9-13 | returns a freshly allocated list whose contents are exactly `[init]`, the list strategy's `create` |
| `ListBucket.Accumulate` | src/main/java/gov/census/torch/util/ListBucket.java:15-17 | returns the same list object it was given; its contents become the old contents followed by `val`; length grows by one; every earlier element keeps its value and position |
| `ListBucket.CreateThenAccumulate` | src/main/java/gov/census/torch/util/ListBucket.java:9-18 | `create(v0)` then `accumulate` with `v1..vn` yields `[v0, ..., vn]` in call order |
| `Buckets.AppendingFold` | src/main/java/gov/census/torch/util/ListBucket.java:9-18 | folding any non-empty sequence of values with the list strategy gives back exactly that sequence |
| `Buckets.CountingFold` | src/main/java/gov/census/torch/counter/IncrementalTally.java:14-20 | folding values with the count strategy gives their sum, whatever the increments |
| `BucketMaps.MutableMap.constructor` | src/main/java/torch/Record.java:26 | a new container is empty |
| `BucketMaps.MutableMap.Put` | src/main/java/torch/Record.java:33 | storing a bucket under a key replaces that key's entry and leaves the others |
| `BucketMaps.BucketMap.constructor` | src/main/java/gov/census/torch/counter/IncrementalTally.java:14-15 | the bucket map wraps the caller's container (same reference) and strategy, with nothing inserted yet |
| `BucketMaps.BucketMap.Add` | src/main/java/gov/census/torch/counter/IncrementalTally.java:20 | a new key gets `create(val)`; an existing key gets `accumulate(old bucket, val)`; no other key changes; the fold invariant is kept |
| `BucketMaps.BucketMap.Map` | src/main/java/gov/census/torch/counter/IncrementalTally.java:28 | returns the live container the bucket map updates, not a copy |
| `BucketMaps.InsertAllFolds` | src/main/java/torch/Record.java:28-33 | from an empty container, a key is present exactly when a value was inserted under it, and its bucket is the fold of those values in insertion order |
| `Records.Record.constructor` | src/main/java/torch/Record.java:84-91 | schema, key, sequence marker and id are stored; fields are a copy of the given array's contents; `NFields()` is the given array's length and `FieldAt(i)` succeeds with its i-th element |
| `Records.Record.FieldAt` | src/main/java/torch/Record.java:41-43 | succeeds exactly for `0 <= i < NFields()` with the i-th stored field; any other index raises index-out-of-bounds carrying `i` |
| `Records.Record.NFields` | src/main/java/torch/Record.java:70-72 | the number of stored fields, fixed at construction |
| `Records.FieldsAreCopied` | src/main/java/torch/Record.java:84-91 | overwriting the caller's array after construction leaves `FieldAt(i)` at the original value |
| `Records.Record.Equals` | src/main/java/torch/Record.java:97-118 | false for a non-record; true exactly when schema (by reference), id and blocking key match, the other record has at least as many fields, and all of this record's fields match; throws index-out-of-bounds exactly when the headers match, the other record is shorter, and its fields all match |
| `Records.EqualsIgnoresSequence` | src/main/java/torch/Record.java:93-118 | two records differing only in their sequence markers are equal |
| `Records.RecordIterator.constructor` | src/main/java/torch/Record.java:23-24 | a new iterator is positioned before its first record |
| `Records.RecordIterator.Next` | src/main/java/torch/Record.java:32 | yields the records in order, then `null`, or the exception when the source fails |
| `Records.Block` | src/main/java/torch/Record.java:23-36 | drains the iterator; on failure returns no map; otherwise returns a fresh container equal to `Group` of the records yielded (empty when none were yielded) |
| `Records.GroupIsPartition` | src/main/java/torch/Record.java:28-35 | a key has a list exactly when some record carries it, and that list is the records with that key in input order |
| `Records.GroupKeys` | src/main/java/torch/Record.java:32-33 | the key set of the result equals the set of blocking keys of the records yielded |
| `Records.GroupPlacesEachRecord` | src/main/java/torch/Record.java:31-33 | every record yielded is in the list under its own blocking key, at the index equal to the number of earlier records with that key |
| `Records.GroupPreservesOrder` | src/main/java/torch/Record.java:28-33 | of two records with the same key, the earlier one has the smaller index in the list |
| `Records.GroupMultiplicity` | src/main/java/torch/Record.java:31-35 | each record occurs in its own key's list as often as in the input, and in no other list |
| `Records.GroupSizesSumToInput` | src/main/java/torch/Record.java:31-35 | over any duplicate-free enumeration of the keys, the list lengths sum to the number of records yielded |
| `Records.BlockingExample` | src/main/java/torch/Record.java:26-35 | A, B keyed SMITH and C keyed JONES block into `{SMITH: [A, B], JONES: [C]}` |
| `Counter.IncrementalTally.constructor` | src/main/java/gov/census/torch/counter/IncrementalTally.java:12-16 | fixes the comparator; starts with a fresh, empty count container and no observed patterns |
| `Counter.IncrementalTally.Add` | src/main/java/gov/census/torch/counter/IncrementalTally.java:18-21 | records pattern `p = compareIndex(rec1, rec2)`; raises `p`'s count by one (from 0 when absent); leaves every other count unchanged |
| `Counter.IncrementalTally.Tally` | src/main/java/gov/census/torch/counter/IncrementalTally.java:27-29 | returns the construction-time comparator with the live container; changes nothing; a pattern has a count exactly when it was observed, and the count is the number of times it was observed |
| `Counter.TallyTwice` | src/main/java/gov/census/torch/counter/IncrementalTally.java:23-29 | two snapshots with no `Add` in between are equal and hold the same counts |
| `Counter.TallyCounts` | src/main/java/gov/census/torch/counter/IncrementalTally.java:18-21 | after any sequence of `add` calls, pattern `p` is present iff it was observed, and its count equals the number of calls that produced `p`, so it is at least 1 |
| `Counter.TallyMerge` | src/main/java/gov/census/torch/counter/IncrementalTally.java:18-21 | tallying two call sequences separately and summing key-wise equals tallying their concatenation |
| `Counter.TallyIgnoresOrder` | src/main/java/gov/census/torch/counter/IncrementalTally.java:18-21 | final counts depend only on the multiset of observed patterns |
| `Counter.MergeMatchesAnyInterleaving` | src/main/java/gov/census/torch/counter/IncrementalTally.java:18-21 | the key-wise sum of two tallies equals the tally of any interleaving of both call sequences, so the merge order does not matter |
| `Counter.TallyExample` | src/main/java/gov/census/torch/counter/IncrementalTally.java:18-21 | patterns `0, 2, 2, 5, 0, 0` tally to `{0: 3, 2: 2, 5: 1}` |

## Left out

- `Record.toString` (src/main/java/torch/Record.java:120-130) is display formatting. It depends on how field values print and on `RecordSchema.hasId`, and neither is part of this model.
- `Field` and `RecordSchema` internals: a field is an opaque value with equality, and a schema is an object compared by reference.
- `RecordComparator.compareIndex`: its field-level agreement logic is not part of this model. It is a fixed, deterministic, total function of the two records. It may read their constant fields, key and id. A comparator that throws is not modelled, so the failure `add` would propagate from it is dropped.
- `IRecordIterator` and the storage behind it: the iterator is a sequence of records followed by either `null` or one exception. A failure partway through is the same as failure after a shorter sequence.
- `Tally` internals are not part of this model. `Tally` is the pair the code passes: the comparator and the live container. Whether `Tally` copies the container is not modelled.
- `BucketMap`, `IntBucket`, `AccumulatorMap` and `ListAccumulator` are not part of this model. One generic bucket map stands for them, with the create-or-accumulate behaviour their call sites rely on. `IntBucket`'s source is not shown either, so the count strategy `create(v) = v`, `accumulate(b, v) = b + v` is assumed. `add` always inserts 1, so a variant with `create(v) = 1` would give the same tallies.
- `Records.Block`: the result holds each key's list as a value, not as a separate mutable list object. Aliasing between the returned map and its lists is not captured. In-place list mutation is modelled in `ListBucket` alone.
- `BucketMaps.MutableMap`: only the key → bucket contents are modelled. The iteration order of `TreeMap` (by key) and `HashMap` is not.
- `Counter.IncrementalTally.Add`: counts are unbounded integers, so the 32-bit `Integer` overflow after 2^31 − 1 pairs with one pattern is not modelled.
- The two `Record` classes of the repository (`torch.Record` and `gov.census.torch.Record`) are modelled as one.
- Concurrency: nothing in the code is concurrent. Merging per-worker tallies appears only as the pure key-wise sum in `Counter.TallyMerge`.
- The downstream statistical estimator that consumes a `Tally` is outside this core, and it uses floating point.
