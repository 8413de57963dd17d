/**
 * Records and blocking.  A record is a fixed array of field values plus a
 * blocking key, a sequence marker and an id (empty when there is none), tied
 * to the schema it was read with.  Blocking drains a record iterator and
 * groups the records by blocking key, keeping the order they arrived in.
 */
module Records {
  import opened Results
  import opened Buckets
  import opened BucketMaps

  /** A field value: only its equality is part of this model. */
  type Field(==)

  /** A record schema, compared by reference only. */
  class RecordSchema { }

  /** Raised by `field(i)` for an index past the end of a record's fields. */
  datatype IndexOutOfBounds = ArrayIndexOutOfBounds(index: int)

  class Record {
    const schema: RecordSchema
    const blockingKey: string
    const sequence: string
    const id: string
    /** The record's own copy of its field values; nothing can write to it. */
    const fields: seq<Field>

    /** Builds a record over a copy of `fields` taken at construction. */
    constructor (schema: RecordSchema, blockingKey: string, sequence: string, id: string, fields: array<Field>)
      ensures this.schema == schema && this.blockingKey == blockingKey
      ensures this.sequence == sequence && this.id == id
      ensures this.fields == fields[..]
      ensures NFields() == fields.Length
      ensures forall i | 0 <= i < fields.Length :: FieldAt(i) == Success(fields[i])
    {
      this.schema := schema;
      this.blockingKey := blockingKey;
      this.sequence := sequence;
      this.id := id;
      this.fields := fields[..];
    }

    /** The i-th field, or the exception an out-of-range index raises. */
    function FieldAt(i: int): (r: Result<Field, IndexOutOfBounds>)
      ensures r.Success? <==> 0 <= i < NFields()
      ensures r.Success? ==> r.value == fields[i]
      ensures r.Failure? ==> r.error == ArrayIndexOutOfBounds(i)
    {
      if 0 <= i < |fields| then Success(fields[i]) else Failure(ArrayIndexOutOfBounds(i))
    }

    /** The number of fields, fixed at construction. */
    function NFields(): (n: nat)
      ensures n == |fields|
    {
      |fields|
    }

    /** Same schema (by reference), same id and same blocking key. */
    predicate SameHeader(rec: Record)
    {
      schema == rec.schema && id == rec.id && blockingKey == rec.blockingKey
    }

    /** The first n fields of this record and of `rec` are pairwise equal. */
    predicate FieldsAgree(rec: Record, n: nat)
      requires n <= NFields() && n <= rec.NFields()
    {
      forall i | 0 <= i < n :: fields[i] == rec.fields[i]
    }

    /**
     * Structural equality: schema by reference, then id, then blocking key,
     * then the fields of this record one by one against `rec.field(i)`.  The
     * sequence marker is never looked at.  When `rec` has fewer fields and all
     * of them agree, `rec.field(i)` runs past its end and throws.
     */
    method Equals(obj: object?) returns (r: Result<bool, IndexOutOfBounds>)
      ensures !(obj is Record) ==> r == Success(false)
      ensures obj is Record ==>
                var rec := obj as Record;
                && (r == Success(true) <==>
                      SameHeader(rec) && NFields() <= rec.NFields() && FieldsAgree(rec, NFields()))
                && (r.Failure? <==>
                      SameHeader(rec) && NFields() > rec.NFields() && FieldsAgree(rec, rec.NFields()))
                && (r.Failure? ==> r.error == ArrayIndexOutOfBounds(rec.NFields()))
    {
      if !(obj is Record) {
        return Success(false);
      }
      var rec := obj as Record;
      if schema != rec.schema {
        return Success(false);
      }
      if id != rec.id {
        return Success(false);
      }
      if blockingKey != rec.blockingKey {
        return Success(false);
      }
      var i := 0;
      while i < |fields|
        invariant 0 <= i <= |fields| && i <= |rec.fields|
        invariant forall j | 0 <= j < i :: fields[j] == rec.fields[j]
      {
        var other := rec.FieldAt(i);
        if other.Failure? {
          return Failure(other.error);
        }
        if fields[i] != other.value {
          return Success(false);
        }
        i := i + 1;
      }
      return Success(true);
    }
  }

  /** Two records built from the same values and differing only in their sequence markers are equal. */
  method EqualsIgnoresSequence(schema: RecordSchema, blockingKey: string, id: string, fields: array<Field>,
                               seq1: string, seq2: string)
    returns (r: Result<bool, IndexOutOfBounds>)
    ensures r == Success(true)
  {
    var a := new Record(schema, blockingKey, seq1, id, fields);
    var b := new Record(schema, blockingKey, seq2, id, fields);
    r := a.Equals(b);
  }

  /** Overwriting the caller's array after construction leaves the record's fields as they were. */
  method FieldsAreCopied(schema: RecordSchema, blockingKey: string, sequence: string, id: string,
                         fields: array<Field>, i: nat, f: Field)
    returns (rec: Record)
    requires i < fields.Length
    modifies fields
    ensures fields[i] == f
    ensures rec.NFields() == fields.Length && rec.FieldAt(i) == Success(old(fields[i]))
  {
    rec := new Record(schema, blockingKey, sequence, id, fields);
    fields[i] := f;
  }

  /** Raised when the storage behind a record iterator fails. */
  datatype RecordIteratorException = RecordIteratorException

  /**
   * A one-shot record source: `Next` yields `records` in order and then
   * either null (the end) or, when `fails`, an exception.
   */
  class RecordIterator {
    const records: seq<Record>
    const fails: bool
    var position: nat

    ghost predicate Valid()
      reads this
    {
      position <= |records|
    }

    constructor (records: seq<Record>, fails: bool)
      ensures Valid() && position == 0
      ensures this.records == records && this.fails == fails
    {
      this.records := records;
      this.fails := fails;
      position := 0;
    }

    /** The records not yet yielded. */
    function Remaining(): (rest: seq<Record>)
      requires Valid()
      reads this
    {
      records[position..]
    }

    method Next() returns (r: Result<Record?, RecordIteratorException>)
      requires Valid()
      modifies this
      ensures Valid()
      ensures old(position) < |records| ==> position == old(position) + 1 && r == Success(records[old(position)])
      ensures old(position) == |records| ==> position == old(position)
      ensures old(position) == |records| ==> r == if fails then Failure(RecordIteratorException) else Success(null)
    {
      if position < |records| {
        r := Success(records[position]);
        position := position + 1;
      } else if fails {
        r := Failure(RecordIteratorException);
      } else {
        r := Success(null);
      }
    }
  }

  /** Each record paired with its blocking key, in order. */
  function Keyed(rs: seq<Record>): (kvs: seq<(string, Record)>)
  {
    seq(|rs|, i requires 0 <= i < |rs| => (rs[i].blockingKey, rs[i]))
  }

  /** Extending a slice by one record extends its keyed pairs by one; a step of `Block`'s loop. */
  lemma KeyedExtend(rs: seq<Record>, i: nat, j: nat)
    requires i <= j < |rs|
    ensures Keyed(rs[i..j + 1]) == Keyed(rs[i..j]) + [(rs[j].blockingKey, rs[j])]
  {
  }

  /** What blocking computes: the records inserted in order under their keys with the list strategy. */
  function Group(rs: seq<Record>): (g: map<string, seq<Record>>)
  {
    InsertAll(map[], Appending(), Keyed(rs))
  }

  /**
   * Drains `it` into a fresh container, grouping the records by blocking key.
   * An exception from the iterator aborts blocking and no map is returned.
   */
  method Block(it: RecordIterator) returns (r: Result<MutableMap<string, seq<Record>>, RecordIteratorException>)
    requires it.Valid()
    modifies it
    ensures it.Valid() && it.position == |it.records|
    ensures r.Success? <==> !it.fails
    ensures r.Success? ==> fresh(r.value) && r.value.contents == Group(old(it.Remaining()))
    ensures r.Success? && old(it.Remaining()) == [] ==> r.value.contents == map[]
  {
    var m := new MutableMap<string, seq<Record>>();
    var acc := new BucketMap(m, Appending<Record>());
    ghost var start := it.position;
    ghost var recs := it.records;
    ghost var rs := it.Remaining();
    while true
      invariant it.Valid() && start <= it.position
      invariant fresh(m) && fresh(acc)
      invariant acc.Valid() && acc.container == m && acc.bucket == Appending() && acc.initial == map[]
      invariant acc.inserted == Keyed(recs[start..it.position])
      decreases |it.records| - it.position
    {
      ghost var p := it.position;
      var next := it.Next();
      if next.Failure? {
        return Failure(next.error);
      }
      var rec := next.value;
      if rec == null {
        assert recs[start..it.position] == rs;
        return Success(m);
      }
      acc.Add(rec.blockingKey, rec);
      KeyedExtend(recs, start, p);
    }
  }

  // Properties of blocking, stated about Group.

  /** The records of `rs` whose blocking key is `k`, in input order. */
  function WithKey(rs: seq<Record>, k: string): (sub: seq<Record>)
    decreases |rs|
  {
    if rs == [] then []
    else WithKey(rs[..|rs| - 1], k) + (if rs[|rs| - 1].blockingKey == k then [rs[|rs| - 1]] else [])
  }

  lemma {:induction false} KeyedValues(rs: seq<Record>, k: string)
    ensures ValuesAt(Keyed(rs), k) == WithKey(rs, k)
    decreases |rs|
  {
    if rs != [] {
      KeyedValues(rs[..|rs| - 1], k);
      assert Keyed(rs)[..|rs| - 1] == Keyed(rs[..|rs| - 1]);
    }
  }

  lemma {:induction false} WithKeyAppend(a: seq<Record>, b: seq<Record>, k: string)
    ensures WithKey(a + b, k) == WithKey(a, k) + WithKey(b, k)
    decreases |b|
  {
    if b == [] {
      assert a + b == a;
    } else {
      WithKeyAppend(a, b[..|b| - 1], k);
      assert (a + b)[..|a + b| - 1] == a + b[..|b| - 1];
    }
  }

  lemma {:induction false} WithKeyEmpty(rs: seq<Record>, k: string)
    ensures WithKey(rs, k) == [] <==> forall r | r in rs :: r.blockingKey != k
    decreases |rs|
  {
    if rs != [] {
      WithKeyEmpty(rs[..|rs| - 1], k);
      assert rs == rs[..|rs| - 1] + [rs[|rs| - 1]];
    }
  }

  /**
   * Blocking partitions its input by key: a key has a list exactly when some
   * record carries it, and that list is those records in input order.
   */
  lemma GroupIsPartition(rs: seq<Record>, k: string)
    ensures k in Group(rs) <==> WithKey(rs, k) != []
    ensures k in Group(rs) ==> Group(rs)[k] == WithKey(rs, k)
  {
    InsertAllFolds(Appending(), Keyed(rs), k);
    KeyedValues(rs, k);
    if WithKey(rs, k) != [] {
      AppendingFold(WithKey(rs, k));
    }
  }

  /** The keys of the result are exactly the blocking keys of the records yielded. */
  lemma GroupKeys(rs: seq<Record>)
    ensures Group(rs).Keys == set r | r in rs :: r.blockingKey
  {
    forall k
      ensures k in Group(rs) <==> k in (set r | r in rs :: r.blockingKey)
    {
      GroupIsPartition(rs, k);
      WithKeyEmpty(rs, k);
    }
  }

  /** The index rs[i] takes in its key's list: the number of earlier records with that key. */
  function Slot(rs: seq<Record>, i: nat): (slot: nat)
    requires i < |rs|
  {
    |WithKey(rs[..i], rs[i].blockingKey)|
  }

  /** Every record yielded is in the list under its own blocking key, at its slot. */
  lemma GroupPlacesEachRecord(rs: seq<Record>, i: nat)
    requires i < |rs|
    ensures rs[i].blockingKey in Group(rs)
    ensures Slot(rs, i) < |Group(rs)[rs[i].blockingKey]|
    ensures Group(rs)[rs[i].blockingKey][Slot(rs, i)] == rs[i]
  {
    var k := rs[i].blockingKey;
    assert rs == rs[..i] + [rs[i]] + rs[i + 1..];
    WithKeyAppend(rs[..i] + [rs[i]], rs[i + 1..], k);
    WithKeyAppend(rs[..i], [rs[i]], k);
    assert [rs[i]][..0] == [];
    GroupIsPartition(rs, k);
  }

  /** Two records with the same key keep their input order within that key's list. */
  lemma GroupPreservesOrder(rs: seq<Record>, i: nat, j: nat)
    requires i < j < |rs| && rs[i].blockingKey == rs[j].blockingKey
    ensures Slot(rs, i) < Slot(rs, j)
  {
    var k := rs[i].blockingKey;
    assert rs[..j] == rs[..i] + [rs[i]] + rs[i + 1..j];
    WithKeyAppend(rs[..i] + [rs[i]], rs[i + 1..j], k);
    WithKeyAppend(rs[..i], [rs[i]], k);
    assert [rs[i]][..0] == [];
  }

  lemma {:induction false} WithKeyCounts(rs: seq<Record>, k: string, x: Record)
    ensures multiset(WithKey(rs, k))[x] == if x.blockingKey == k then multiset(rs)[x] else 0
    decreases |rs|
  {
    if rs != [] {
      WithKeyCounts(rs[..|rs| - 1], k, x);
      assert rs == rs[..|rs| - 1] + [rs[|rs| - 1]];
    }
  }

  /**
   * No record is dropped or duplicated: each occurrence of a record in the
   * input is in the list under its own key, and in no other list.
   */
  lemma GroupMultiplicity(rs: seq<Record>, k: string, x: Record)
    requires k in Group(rs)
    ensures multiset(Group(rs)[k])[x] == if x.blockingKey == k then multiset(rs)[x] else 0
  {
    GroupIsPartition(rs, k);
    WithKeyCounts(rs, k, x);
  }

  predicate NoDuplicates(ks: seq<string>)
  {
    forall i, j | 0 <= i < j < |ks| :: ks[i] != ks[j]
  }

  /** The sum of the lengths of g's lists under the keys ks. */
  function TotalLength(g: map<string, seq<Record>>, ks: seq<string>): (total: nat)
    requires forall k | k in ks :: k in g
    decreases |ks|
  {
    if ks == [] then 0 else TotalLength(g, ks[..|ks| - 1]) + |g[ks[|ks| - 1]]|
  }

  /** The number of records of `rs` whose key is in `keys`. */
  function CountIn(rs: seq<Record>, keys: set<string>): (count: nat)
    decreases |rs|
  {
    if rs == [] then 0
    else CountIn(rs[..|rs| - 1], keys) + (if rs[|rs| - 1].blockingKey in keys then 1 else 0)
  }

  lemma {:induction false} CountInAddKey(rs: seq<Record>, keys: set<string>, k: string)
    requires k !in keys
    ensures CountIn(rs, keys + {k}) == CountIn(rs, keys) + |WithKey(rs, k)|
    decreases |rs|
  {
    if rs != [] {
      CountInAddKey(rs[..|rs| - 1], keys, k);
    }
  }

  lemma {:induction false} CountInAll(rs: seq<Record>, keys: set<string>)
    requires forall r | r in rs :: r.blockingKey in keys
    ensures CountIn(rs, keys) == |rs|
    decreases |rs|
  {
    if rs != [] {
      assert forall r | r in rs[..|rs| - 1] :: r in rs;
      CountInAll(rs[..|rs| - 1], keys);
      assert rs[|rs| - 1] in rs;
    }
  }

  lemma {:induction false} CountInNoKeys(rs: seq<Record>)
    ensures CountIn(rs, {}) == 0
    decreases |rs|
  {
    if rs != [] {
      CountInNoKeys(rs[..|rs| - 1]);
    }
  }

  lemma {:induction false} TotalLengthOfGroup(rs: seq<Record>, ks: seq<string>)
    requires NoDuplicates(ks)
    requires forall k | k in ks :: k in Group(rs)
    ensures TotalLength(Group(rs), ks) == CountIn(rs, set k | k in ks)
    decreases |ks|
  {
    if ks == [] {
      assert (set k | k in ks) == {};
      CountInNoKeys(rs);
    } else {
      var init, k := ks[..|ks| - 1], ks[|ks| - 1];
      assert forall j | j in init :: j in ks;
      TotalLengthOfGroup(rs, init);
      assert (set j | j in ks) == (set j | j in init) + {k};
      CountInAddKey(rs, (set j | j in init), k);
      GroupIsPartition(rs, k);
    }
  }

  /**
   * The lengths of the lists in the result, taken once per key, sum to the
   * number of records yielded.
   */
  lemma GroupSizesSumToInput(rs: seq<Record>, ks: seq<string>)
    requires NoDuplicates(ks)
    requires forall k :: k in ks <==> k in Group(rs)
    ensures TotalLength(Group(rs), ks) == |rs|
  {
    TotalLengthOfGroup(rs, ks);
    GroupKeys(rs);
    CountInAll(rs, set k | k in ks);
  }

  /** Records A and B keyed SMITH and C keyed JONES block into {SMITH: [A, B], JONES: [C]}. */
  lemma BlockingExample(a: Record, b: Record, c: Record)
    requires a.blockingKey == "SMITH" && b.blockingKey == "SMITH" && c.blockingKey == "JONES"
    ensures Group([a, b, c]) == map["SMITH" := [a, b], "JONES" := [c]]
  {
    var kvs := Keyed([a, b, c]);
    assert kvs == [("SMITH", a), ("SMITH", b), ("JONES", c)];
    assert kvs[..2] == [("SMITH", a), ("SMITH", b)];
    assert kvs[..2][..1] == [("SMITH", a)];
    assert kvs[..2][..1][..0] == kvs[..0] == [];
    var g0 := InsertAll(map[], Appending<Record>(), kvs[..2][..1][..0]);
    assert g0 == map[];
    var g1 := InsertAll(map[], Appending(), kvs[..2][..1]);
    assert Appending().create(a) == [a];
    assert g1 == Insert(g0, Appending(), "SMITH", a);
    assert g1 == map["SMITH" := [a]];
    assert Appending().accumulate([a], b) == [a, b];
    var g2 := InsertAll(map[], Appending(), kvs[..2]);
    assert g2 == Insert(g1, Appending(), "SMITH", b) == map["SMITH" := [a, b]];
    assert Group([a, b, c]) == Insert(g2, Appending(), "JONES", c);
  }
}
