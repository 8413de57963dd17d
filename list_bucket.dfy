/**
 * The list strategy as the source implements it: `create` allocates a new
 * linked list holding the first value, and `accumulate` appends to the
 * caller's list in place and hands back that same list.
 */
module ListBucket {
  import opened Buckets

  /** A mutable list; only its contents, in order, are modelled. */
  class LinkedList<V> {
    var elements: seq<V>

    constructor ()
      ensures elements == []
    {
      elements := [];
    }

    method Add(v: V)
      modifies this
      ensures elements == old(elements) + [v]
    {
      elements := elements + [v];
    }
  }

  /** A fresh list whose only element is `init`. */
  method Create<V>(init: V) returns (list: LinkedList<V>)
    ensures fresh(list)
    ensures list.elements == [init] == Appending().create(init)
  {
    list := new LinkedList();
    list.Add(init);
  }

  /** Appends `val` to `list` in place and returns the same list. */
  method Accumulate<V>(list: LinkedList<V>, val: V) returns (r: LinkedList<V>)
    modifies list
    ensures r == list
    ensures list.elements == old(list.elements) + [val] == Appending().accumulate(old(list.elements), val)
    ensures |list.elements| == |old(list.elements)| + 1
    ensures forall i | 0 <= i < |old(list.elements)| :: list.elements[i] == old(list.elements[i])
  {
    list.Add(val);
    r := list;
  }

  /** Creates a bucket from vs[0] and accumulates vs[1..] into it, one call each. */
  method CreateThenAccumulate<V>(vs: seq<V>) returns (list: LinkedList<V>)
    requires |vs| > 0
    ensures fresh(list)
    ensures list.elements == vs
  {
    list := Create(vs[0]);
    var i := 1;
    while i < |vs|
      invariant 1 <= i <= |vs|
      invariant fresh(list)
      invariant list.elements == vs[..i]
    {
      list := Accumulate(list, vs[i]);
      assert vs[..i + 1] == vs[..i] + [vs[i]];
      i := i + 1;
    }
  }
}
