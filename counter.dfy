/**
 * The incremental tally: counts, per comparison-pattern index, how many
 * record pairs produced that pattern.  Counts live in a bucket map with the
 * count strategy over an ordered container, and a snapshot hands that
 * container to a Tally together with the comparator.
 */
module Counter {
  import opened Buckets
  import opened BucketMaps
  import opened Records

  /** Maps a pair of records to its comparison-pattern index; its field-level logic is not modelled. */
  class RecordComparator {
    const index: (Record, Record) -> int

    constructor (index: (Record, Record) -> int)
      ensures this.index == index
    {
      this.index := index;
    }

    function CompareIndex(rec1: Record, rec2: Record): (pattern: int)
    {
      index(rec1, rec2)
    }
  }

  /** A comparator and the pattern -> count container it was built with. */
  datatype Tally = NewTally(cmp: RecordComparator, counts: MutableMap<int, int>)

  /** The insertions `add` makes for the patterns ps: each pattern with increment 1. */
  function Ones(ps: seq<int>): (kvs: seq<(int, int)>)
    decreases |ps|
  {
    if ps == [] then [] else Ones(ps[..|ps| - 1]) + [(ps[|ps| - 1], 1)]
  }

  /** The counts after `add` has observed the patterns ps, in order. */
  function TallyOf(ps: seq<int>): (counts: map<int, int>)
  {
    InsertAll(map[], Counting(), Ones(ps))
  }

  /** How many times p occurs in ps. */
  function Occurrences(ps: seq<int>, p: int): (n: nat)
    decreases |ps|
  {
    if ps == [] then 0
    else Occurrences(ps[..|ps| - 1], p) + (if ps[|ps| - 1] == p then 1 else 0)
  }

  /** Key-wise sum of two count maps: the merge of two independently kept tallies. */
  function Merge(a: map<int, int>, b: map<int, int>): (sum: map<int, int>)
  {
    map k | k in a.Keys + b.Keys :: (if k in a then a[k] else 0) + (if k in b then b[k] else 0)
  }

  lemma {:induction false} OnesValues(ps: seq<int>, p: int)
    ensures ValuesAt(Ones(ps), p) == seq(Occurrences(ps, p), _ => 1)
    decreases |ps|
  {
    if ps != [] {
      OnesValues(ps[..|ps| - 1], p);
    }
  }

  lemma {:induction false} SumOfOnes(n: nat)
    ensures Sum(seq(n, _ => 1)) == n
  {
    if n > 0 {
      SumOfOnes(n - 1);
      assert seq(n, _ => 1)[..n - 1] == seq(n - 1, _ => 1);
    }
  }

  /**
   * The tally invariant: a pattern has a count exactly when it was observed,
   * and its count is the number of times it was observed (so at least 1).
   */
  lemma TallyCounts(ps: seq<int>, p: int)
    ensures p in TallyOf(ps) <==> p in ps
    ensures p in TallyOf(ps) ==> TallyOf(ps)[p] == Occurrences(ps, p) >= 1
  {
    InsertAllFolds(Counting(), Ones(ps), p);
    OnesValues(ps, p);
    OccurrencesPositive(ps, p);
    var n := Occurrences(ps, p);
    if n > 0 {
      CountingFold(seq(n, _ => 1));
      SumOfOnes(n);
    }
  }

  lemma {:induction false} OccurrencesPositive(ps: seq<int>, p: int)
    ensures Occurrences(ps, p) > 0 <==> p in ps
    decreases |ps|
  {
    if ps != [] {
      OccurrencesPositive(ps[..|ps| - 1], p);
      assert ps == ps[..|ps| - 1] + [ps[|ps| - 1]];
    }
  }

  lemma {:induction false} OccurrencesAppend(ps: seq<int>, qs: seq<int>, p: int)
    ensures Occurrences(ps + qs, p) == Occurrences(ps, p) + Occurrences(qs, p)
    decreases |qs|
  {
    if qs == [] {
      assert ps + qs == ps;
    } else {
      OccurrencesAppend(ps, qs[..|qs| - 1], p);
      assert (ps + qs)[..|ps + qs| - 1] == ps + qs[..|qs| - 1];
    }
  }

  lemma {:induction false} OccurrencesAreMultiplicity(ps: seq<int>, p: int)
    ensures Occurrences(ps, p) == multiset(ps)[p]
    decreases |ps|
  {
    if ps != [] {
      OccurrencesAreMultiplicity(ps[..|ps| - 1], p);
      assert ps == ps[..|ps| - 1] + [ps[|ps| - 1]];
    }
  }

  /** Two tallies that agree on every pattern's count are the same map. */
  lemma SameCountsSameTally(ps: seq<int>, qs: seq<int>)
    requires forall p :: Occurrences(ps, p) == Occurrences(qs, p)
    ensures TallyOf(ps) == TallyOf(qs)
  {
    forall p
      ensures (p in TallyOf(ps) <==> p in TallyOf(qs))
      ensures p in TallyOf(ps) ==> TallyOf(ps)[p] == TallyOf(qs)[p]
    {
      TallyCounts(ps, p);
      TallyCounts(qs, p);
      OccurrencesPositive(ps, p);
      OccurrencesPositive(qs, p);
    }
  }

  /**
   * Tallying two call sequences separately and merging the counts key-wise
   * gives the tally of their concatenation.
   */
  lemma TallyMerge(ps: seq<int>, qs: seq<int>)
    ensures Merge(TallyOf(ps), TallyOf(qs)) == TallyOf(ps + qs)
  {
    var m := Merge(TallyOf(ps), TallyOf(qs));
    forall p
      ensures (p in m <==> p in TallyOf(ps + qs))
      ensures p in m ==> m[p] == TallyOf(ps + qs)[p]
    {
      TallyCounts(ps, p);
      TallyCounts(qs, p);
      TallyCounts(ps + qs, p);
      OccurrencesPositive(ps, p);
      OccurrencesPositive(qs, p);
      OccurrencesAppend(ps, qs, p);
    }
  }

  /** The final counts depend only on the multiset of observed patterns, not on their order. */
  lemma TallyIgnoresOrder(ps: seq<int>, qs: seq<int>)
    requires multiset(ps) == multiset(qs)
    ensures TallyOf(ps) == TallyOf(qs)
  {
    forall p
      ensures Occurrences(ps, p) == Occurrences(qs, p)
    {
      OccurrencesAreMultiplicity(ps, p);
      OccurrencesAreMultiplicity(qs, p);
    }
    SameCountsSameTally(ps, qs);
  }

  /**
   * Merging two tallies gives the tally of any interleaving of their calls,
   * so workers' tallies may be merged in any order.
   */
  lemma MergeMatchesAnyInterleaving(ps: seq<int>, qs: seq<int>, xs: seq<int>)
    requires multiset(xs) == multiset(ps) + multiset(qs)
    ensures Merge(TallyOf(ps), TallyOf(qs)) == TallyOf(xs)
  {
    TallyMerge(ps, qs);
    TallyIgnoresOrder(ps + qs, xs);
  }

  /** Patterns 0, 2, 2, 5, 0, 0 tally to {0: 3, 2: 2, 5: 1}. */
  lemma TallyExample()
    ensures TallyOf([0, 2, 2, 5, 0, 0]) == map[0 := 3, 2 := 2, 5 := 1]
  {
    var ps := [0, 2, 2, 5, 0, 0];
    forall p
      ensures p in TallyOf(ps) <==> p in {0, 2, 5}
    {
      TallyCounts(ps, p);
    }
    TallyCounts(ps, 0);
    TallyCounts(ps, 2);
    TallyCounts(ps, 5);
    ExampleOccurrences(0);
    ExampleOccurrences(2);
    ExampleOccurrences(5);
  }

  lemma ExampleOccurrences(p: int)
    ensures Occurrences([0, 2, 2, 5, 0, 0], p) == if p == 0 then 3 else if p == 2 then 2 else if p == 5 then 1 else 0
  {
    var ps := [0, 2, 2, 5, 0, 0];
    var s1 := [0];
    var s2 := s1 + [2];
    var s3 := s2 + [2];
    var s4 := s3 + [5];
    var s5 := s4 + [0];
    assert s1[..0] == [] && s2[..1] == s1 && s3[..2] == s2 && s4[..3] == s3 && s5[..4] == s4;
    assert ps == s5 + [0] && ps[..5] == s5;
    assert Occurrences(s1, p) == (if p == 0 then 1 else 0);
    assert Occurrences(s2, p) == Occurrences(s1, p) + (if p == 2 then 1 else 0);
    assert Occurrences(s3, p) == Occurrences(s2, p) + (if p == 2 then 1 else 0);
    assert Occurrences(s4, p) == Occurrences(s3, p) + (if p == 5 then 1 else 0);
    assert Occurrences(s5, p) == Occurrences(s4, p) + (if p == 0 then 1 else 0);
  }

  class IncrementalTally {
    const cmp: RecordComparator
    const acc: BucketMap<int, int, int>
    /** The pattern of every pair passed to Add, in call order. */
    ghost var observed: seq<int>

    ghost predicate Valid()
      reads this, acc, acc.container
    {
      && acc.Valid()
      && acc.bucket == Counting()
      && acc.initial == map[]
      && acc.inserted == Ones(observed)
    }

    /** Starts with an empty ordered container and the given comparator. */
    constructor (cmp: RecordComparator)
      ensures Valid()
      ensures this.cmp == cmp && observed == []
      ensures fresh(acc) && fresh(acc.container) && acc.container.contents == map[]
    {
      this.cmp := cmp;
      var m := new MutableMap<int, int>();
      acc := new BucketMap(m, Counting());
      observed := [];
    }

    /** Counts one more pair under the pattern the comparator assigns it. */
    method Add(rec1: Record, rec2: Record)
      requires Valid()
      modifies this, acc, acc.container
      ensures Valid()
      ensures observed == old(observed) + [cmp.CompareIndex(rec1, rec2)]
      ensures var p := cmp.CompareIndex(rec1, rec2);
              var before := old(acc.container.contents);
              acc.container.contents == before[p := (if p in before then before[p] else 0) + 1]
    {
      var pattern := cmp.CompareIndex(rec1, rec2);
      acc.Add(pattern, 1);
      observed := observed + [pattern];
    }

    /**
     * A Tally over this tally's comparator and its live container, whose
     * counts are the occurrences of each observed pattern.
     */
    method Tally() returns (t: Tally)
      requires Valid()
      ensures t.cmp == cmp && t.counts == acc.container
      ensures forall p :: p in t.counts.contents <==> p in observed
      ensures forall p | p in t.counts.contents :: t.counts.contents[p] == Occurrences(observed, p)
    {
      t := NewTally(cmp, acc.Map());
      forall p
        ensures p in t.counts.contents <==> p in observed
        ensures p in t.counts.contents ==> t.counts.contents[p] == Occurrences(observed, p)
      {
        TallyCounts(observed, p);
      }
    }
  }

  /** Two snapshots with no Add in between report the same counts. */
  method TallyTwice(it: IncrementalTally) returns (t1: Tally, t2: Tally, ghost c1: map<int, int>)
    requires it.Valid()
    ensures t1 == t2
    ensures c1 == t2.counts.contents == TallyOf(it.observed)
  {
    t1 := it.Tally();
    c1 := t1.counts.contents;
    t2 := it.Tally();
  }
}
