/**
 What the forward pool computes (src/fw_pool.c, HandleForwards in src/proxy.c), on plain
 sequences: swap-with-last removal, the search for a closed pair, the sweep, and the history of
 the capacity.
 */
module Pool {
  import opened Common

  /** A forwarded connection: one channel towards the client, and in ALLOW one towards the HaaS server. */
  datatype Pair = Pair(id: Handle, source: Option<Handle>, destiny: Option<Handle>, closed: bool)

  function SwapRemove<T>(items: seq<T>, i: nat): seq<T>
    requires i < |items|
  {
    var last := |items| - 1;
    if i < last then items[..last][i := items[last]] else items[..last]
  }

  lemma SwapRemoveMultiset<T>(items: seq<T>, i: nat)
    requires i < |items|
    ensures multiset(SwapRemove(items, i)) == multiset(items) - multiset{items[i]}
  {
    var last := |items| - 1;
    assert items == items[..last] + [items[last]];
    if i < last {
      var head := items[..last];
      assert head == head[..i] + [items[i]] + head[i + 1..];
      assert head[i := items[last]] == head[..i] + [items[last]] + head[i + 1..];
    }
  }

  /** The first closed pair. */
  function FindClosed(items: seq<Pair>): Option<nat> {
    FindClosedFrom(items, 0)
  }

  function FindClosedFrom(items: seq<Pair>, i: nat): (r: Option<nat>)
    requires i <= |items|
    ensures r.Some? ==> i <= r.value < |items| && items[r.value].closed
    ensures forall k :: i <= k < (if r.Some? then r.value else |items|) ==> !items[k].closed
    decreases |items| - i
  {
    if i == |items| then None
    else if items[i].closed then Some(i)
    else FindClosedFrom(items, i + 1)
  }

  /** The pool after the release loop of HandleForwards. */
  function Sweep(items: seq<Pair>): seq<Pair>
    decreases |items|
  {
    var f := FindClosed(items);
    if f.None? then items else Sweep(SwapRemove(items, f.value))
  }

  /** The pairs that loop releases, in order. */
  function Swept(items: seq<Pair>): seq<Pair>
    decreases |items|
  {
    var f := FindClosed(items);
    if f.None? then [] else [items[f.value]] + Swept(SwapRemove(items, f.value))
  }

  function Open(items: seq<Pair>): seq<Pair> {
    if items == [] then []
    else Open(items[..|items| - 1]) + (if items[|items| - 1].closed then [] else [items[|items| - 1]])
  }

  lemma {:induction false} OpenCount(items: seq<Pair>, p: Pair)
    ensures multiset(Open(items))[p] == if p.closed then 0 else multiset(items)[p]
  {
    if items != [] {
      OpenCount(items[..|items| - 1], p);
      assert items == items[..|items| - 1] + [items[|items| - 1]];
    }
  }

  lemma {:induction false} SweepCount(items: seq<Pair>, p: Pair)
    ensures multiset(Sweep(items))[p] == if p.closed then 0 else multiset(items)[p]
    ensures multiset(Swept(items))[p] == if p.closed then multiset(items)[p] else 0
    decreases |items|
  {
    var f := FindClosed(items);
    if f.Some? {
      var fewer := SwapRemove(items, f.value);
      SwapRemoveMultiset(items, f.value);
      SweepCount(fewer, p);
      assert items[f.value] in items && multiset(items)[items[f.value]] > 0;
    }
  }

  /**
   The sweep keeps exactly the open pairs, each as often as before, and releases exactly the
   closed ones, each as often as the pool held it.
   */
  lemma SweepKeepsOpen(items: seq<Pair>)
    ensures multiset(Sweep(items)) == multiset(Open(items))
    ensures multiset(Sweep(items)) + multiset(Swept(items)) == multiset(items)
    ensures forall p :: (p in Sweep(items) ==> !p.closed) && (p in Swept(items) ==> p.closed)
  {
    hide Sweep, Swept, Open;
    var kept, released, open := multiset(Sweep(items)), multiset(Swept(items)), multiset(Open(items));
    forall p
      ensures kept[p] == open[p] && kept[p] + released[p] == multiset(items)[p]
      ensures (kept[p] > 0 ==> !p.closed) && (released[p] > 0 ==> p.closed)
    {
      SweepCount(items, p);
      OpenCount(items, p);
    }
    assert forall p :: (p in Sweep(items) ==> kept[p] > 0) && (p in Swept(items) ==> released[p] > 0);
  }

  // ---------------------------------------------------------------- capacity

  const POOL_ALLOC_SIZE := 10

  datatype PoolOp = Add | Remove

  /** The numbers of a pool, with the largest use ever, the grows, and the slots they copied. */
  datatype Shape = Shape(used: nat, alloc: nat, peak: nat, grows: nat, copied: nat)

  function AddShape(s: Shape): Shape {
    var g := if s.used < s.alloc then s
             else s.(alloc := s.alloc + POOL_ALLOC_SIZE, grows := s.grows + 1, copied := s.copied + s.alloc);
    g.(used := s.used + 1, peak := if s.used + 1 > s.peak then s.used + 1 else s.peak)
  }

  function ShapeAfter(ops: seq<PoolOp>): Shape {
    if ops == [] then Shape(0, 0, 0, 0, 0)
    else
      var s := ShapeAfter(ops[..|ops| - 1]);
      if ops[|ops| - 1].Add? then AddShape(s)
      else if s.used > 0 then s.(used := s.used - 1) else s
  }

  lemma OneMoreOp(ops: seq<PoolOp>, op: PoolOp)
    ensures var s := ShapeAfter(ops);
            ShapeAfter(ops + [op]) == if op.Add? then AddShape(s) else if s.used > 0 then s.(used := s.used - 1) else s
  {
    assert (ops + [op])[..|ops|] == ops;
  }

  /**
   With every allocation succeeding, the history of a pool fixes its capacity: ten slots for every
   ten pairs begun at the peak, one grow for each, and a quadratic number of copied slots.
   */
  lemma {:induction false} CapacityHistory(ops: seq<PoolOp>)
    ensures var s := ShapeAfter(ops);
            && s.used <= s.peak && s.used <= s.alloc
            && s.grows == (s.peak + 9) / 10
            && s.alloc == 10 * s.grows
            && s.copied == 5 * s.grows * (s.grows - 1)
  {
    if ops != [] {
      CapacityHistory(ops[..|ops| - 1]);
      var s := ShapeAfter(ops[..|ops| - 1]);
      OneMoreGrow(s.grows);
    }
  }

  lemma OneMoreGrow(k: int)
    ensures 5 * (k + 1) * (k + 1 - 1) == 5 * k * (k - 1) + 10 * k
  {
  }
}
