/** The forward pool and its pairs as they are in memory (src/fw_pool.c, src/fw_pair.c). */
module ForwardPools {
  import opened Common
  import opened Ledger
  import opened Pool

  /** libssh and malloc, as far as the proxy's calls on them go: the handles given out, and the log of calls. */
  class Calls {
    var next: Handle
    ghost var log: seq<Op>

    constructor ()
      ensures next == 0 && log == []
    {
      next, log := 0, [];
    }

    method Do(op: Op)
      modifies this`log
      ensures log == old(log) + [op]
    {
      log := log + [op];
    }

    method NewSession() returns (s: Handle)
      modifies this
      ensures s == old(next) && next == s + 1 && log == old(log) + [SessionNew(s)]
    {
      s := next;
      next := next + 1;
      Do(SessionNew(s));
    }

    method NewChannel(session: Handle) returns (c: Handle)
      modifies this
      ensures c == old(next) && next == c + 1 && log == old(log) + [ChannelNew(c, session)]
    {
      c := next;
      next := next + 1;
      Do(ChannelNew(c, session));
    }

    method NewPair() returns (p: Handle)
      modifies this
      ensures p == old(next) && next == p + 1 && log == old(log) + [PairNew(p)]
    {
      p := next;
      next := next + 1;
      Do(PairNew(p));
    }

    /** ssh_channel_close, or a call like it, and ssh_channel_free. */
    method DropChannel(c: Handle)
      modifies this`log
      ensures log == old(log) + [ChannelUse(c)] + [ChannelFree(c)]
    {
      Do(ChannelUse(c));
      Do(ChannelFree(c));
    }
  }

  /** The log after a channel, if there is one, has been given back, and after a pair with its channels has. */
  function Dropped(log: seq<Op>, h: Option<Handle>): seq<Op> {
    if h.Some? then log + [ChannelUse(h.value)] + [ChannelFree(h.value)] else log
  }

  function Released(log: seq<Op>, p: Pair): seq<Op> {
    Dropped(Dropped(log, p.source), p.destiny) + [PairFree(p.id)]
  }

  function ReleasedAll(log: seq<Op>, ps: seq<Pair>): seq<Op>
    decreases |ps|
  {
    if ps == [] then log else ReleasedAll(Released(log, ps[0]), ps[1..])
  }

  // ---------------------------------------------------------------- pairs

  datatype Endpoint = Endpoint(addr: Option<string>, port: int, channel: Option<Handle>)

  const NO_ENDPOINT := Endpoint(None, 0, None)

  method EndpointDone(end: Endpoint, calls: Calls) returns (cleared: Endpoint)
    modifies calls`log
    ensures cleared == NO_ENDPOINT && calls.log == Dropped(old(calls.log), end.channel)
  {
    cleared := end.(addr := None, port := 0);
    if end.channel.Some? {
      calls.DropChannel(end.channel.value);
      cleared := cleared.(channel := None);
    }
  }

  class FwPair {
    const id: Handle
    var context: bool
    var closed: bool
    var source: Endpoint
    var destiny: Endpoint

    ghost function Value(): Pair
      reads this
    {
      Pair(id, source.channel, destiny.channel, closed)
    }

    constructor (id: Handle)
      ensures this.id == id && Value() == Pair(id, None, None, false) && !context
    {
      this.id := id;
      context, closed := false, false;
      source, destiny := NO_ENDPOINT, NO_ENDPOINT;
    }

    /** FwPairRelease: the channels of both ends go back, then the pair itself. */
    method Release(calls: Calls)
      modifies this, calls`log
      ensures calls.log == Released(old(calls.log), old(Value()))
      ensures Value() == Pair(id, None, None, false)
    {
      context, closed := false, false;
      source := EndpointDone(source, calls);
      destiny := EndpointDone(destiny, calls);
      calls.Do(PairFree(id));
    }
  }

  predicate IsClosed(p: FwPair?)
    reads p
  {
    p != null && p.closed
  }

  /** The first closed pair of ps is p, and swap-removing it leaves rest. */
  predicate Taken(ps: seq<Pair>, rest: seq<Pair>, p: Pair) {
    var f := Pool.FindClosed(ps);
    f.Some? && p == ps[f.value] && rest == SwapRemove(ps, f.value)
  }

  /** The slots hold exactly these pairs, each in an object of its own. */
  ghost predicate Describes(s: seq<FwPair?>, ps: seq<Pair>)
    reads set p | p in s
  {
    && |ps| == |s|
    && (forall i :: 0 <= i < |s| ==> s[i] in s && s[i] != null && s[i].context && s[i].Value() == ps[i])
    && (forall i, j :: 0 <= i < j < |s| ==> s[i] != s[j])
  }

  lemma DescribesMore(s: seq<FwPair?>, ps: seq<Pair>, pair: FwPair)
    requires Describes(s, ps) && pair !in s && pair.context
    ensures Describes(s + [pair], ps + [pair.Value()])
  {
    var t := s + [pair];
    assert forall i :: 0 <= i < |s| ==> t[i] == s[i] && t[i] in s;
    assert t[|s|] == pair;
  }

  /** Swap-removal on the slots is swap-removal on the values, and the removed object is gone from them. */
  lemma {:induction false} DescribesLess(s: seq<FwPair?>, ps: seq<Pair>, i: nat)
    requires Describes(s, ps) && i < |s|
    ensures Describes(SwapRemove(s, i), SwapRemove(ps, i)) && s[i] !in SwapRemove(s, i)
    ensures forall p :: p in SwapRemove(s, i) ==> p in s
  {
    var t := SwapRemove(s, i);
    assert forall k :: 0 <= k < |t| ==> t[k] == s[if k == i then |s| - 1 else k];
  }

  // ---------------------------------------------------------------- the pool

  /** What FwPoolAdd does: refuse, store, or store past the end of Items. */
  datatype Stored = Refused | At(index: nat) | PastTheEnd

  class FwPool {
    var used: nat
    var alloc: nat
    var items: array?<FwPair?>
    ghost var history: seq<PoolOp>

    ghost predicate Valid()
      reads this, items
    {
      && (if items == null then alloc == 0 else items.Length == alloc)
      && used <= alloc
      && ShapeAfter(history).used == used && ShapeAfter(history).alloc == alloc
    }

    /** The occupied slots. */
    ghost function Contents(): (s: seq<FwPair?>)
      reads this, items
      ensures Valid() ==> |s| == used
    {
      if items == null || used > items.Length then [] else items[..used]
    }

    /** The pool is made of objects in `all`, and its slots hold exactly the pairs ps. */
    ghost predicate Is(ps: seq<Pair>, all: set<object>)
      reads this, items, all
    {
      && this in all && (items == null || items in all) && (forall p :: p in Contents() ==> p == null || p in all)
      && Valid() && |ps| == used && Describes(Contents(), ps)
    }

    constructor ()
      ensures Valid() && Contents() == [] && alloc == 0 && history == [] && items == null
    {
      used, alloc, items, history := 0, 0, null, [];
    }

    /** Capacity follows the peak: ten slots for every ten pairs begun, over the whole life of the pool. */
    lemma CapacityFollowsPeak()
      requires Valid()
      ensures var s := ShapeAfter(history); used <= s.peak && alloc == 10 * ((s.peak + 9) / 10)
    {
      CapacityHistory(history);
    }

    /** A realloc that succeeds. */
    method Grow()
      requires Valid() && used == alloc
      modifies this`alloc, this`items
      ensures fresh(items) && items != null && items.Length == alloc == old(alloc) + POOL_ALLOC_SIZE
      ensures items[..used] == old(Contents())
    {
      var size := alloc + POOL_ALLOC_SIZE;
      var p := new FwPair?[size](_ => null);
      ghost var was := Contents();
      for i := 0 to used
        modifies p
        invariant p[..i] == was[..i]
      {
        p[i] := items[i];
      }
      alloc, items := size, p;
    }

    /** FwPoolAdd on a pool that exists. */
    method Add(item: FwPair?, reallocated: bool) returns (r: Stored)
      requires Valid()
      modifies this, items
      ensures Valid() && (items == old(items) || fresh(items))
      ensures r == (if old(used) == old(alloc) && !reallocated then PastTheEnd else At(old(used)))
      ensures r.PastTheEnd? ==> items == old(items) && Contents() == old(Contents())
      ensures r.PastTheEnd? ==> history == old(history) && alloc == old(alloc)
      ensures r.At? ==> Contents() == old(Contents()) + [item] && history == old(history) + [PoolOp.Add]
      ensures r.At? ==> alloc == (if old(used) == old(alloc) then old(alloc) + POOL_ALLOC_SIZE else old(alloc))
    {
      hide ShapeAfter;
      ghost var was := Contents();
      if used >= alloc {
        if reallocated {
          Grow();
        }
      }
      assert Contents() == was;
      r := Refused;
      if used <= alloc {
        if items == null || used == items.Length {
          return PastTheEnd;
        }
        r := At(used);
        items[used] := item;
        used := used + 1;
        OneMoreOp(history, PoolOp.Add);
        history := history + [PoolOp.Add];
      }
    }

    /** FwPoolRemove: whether there was such a pair. */
    method Remove(index: int) returns (done: bool)
      requires Valid()
      modifies this`used, this`history, items
      ensures Valid() && done == (0 <= index < old(used))
      ensures done ==> Contents() == SwapRemove(old(Contents()), index) && history == old(history) + [PoolOp.Remove]
      ensures done ==>
                && |Contents()| == old(used) - 1
                && forall k :: 0 <= k < used ==> Contents()[k] == old(Contents())[if k == index then used else k]
      ensures !done ==> Contents() == old(Contents()) && history == old(history)
    {
      hide ShapeAfter;
      done := false;
      if 0 <= index < used {
        used := used - 1;
        if index < used {
          items[index] := items[used];
        }
        OneMoreOp(history, PoolOp.Remove);
        history := history + [PoolOp.Remove];
        done := true;
      }
    }

    /** FwPoolFindClosed: the first closed pair, or -1. */
    method FindClosed() returns (back: int)
      requires Valid()
      ensures -1 <= back < used
      ensures back >= 0 ==> IsClosed(Contents()[back])
      ensures forall k :: 0 <= k < (if back >= 0 then back else used) ==> !IsClosed(Contents()[k])
    {
      back := -1;
      var i := 0;
      while i < used
        invariant 0 <= i <= used && back == -1
        invariant forall k :: 0 <= k < i ==> !IsClosed(Contents()[k])
      {
        var item := items[i];
        if item != null {
          if item.closed {
            back := i;
            break;
          }
        }
        i := i + 1;
      }
    }

    /** The index FindClosed gives is that of the first closed value. */
    lemma ClosedIs(ps: seq<Pair>, back: int)
      requires Valid() && Describes(Contents(), ps) && -1 <= back < used
      requires back >= 0 ==> IsClosed(Contents()[back])
      requires forall k :: 0 <= k < (if back >= 0 then back else used) ==> !IsClosed(Contents()[k])
      ensures Pool.FindClosed(ps) == if back >= 0 then Some(back) else None
    {
      assert forall k :: 0 <= k < |ps| ==> ps[k].closed == IsClosed(Contents()[k]);
    }

    /** FwPoolGet: null outside the pool. */
    method Get(index: int) returns (item: FwPair?)
      requires Valid()
      ensures item == if 0 <= index < used then Contents()[index] else null
    {
      item := null;
      if 0 <= index < used {
        item := items[index];
      }
    }

    // -------------------------------------------------------------- the pool as values

    /** The close callback of a pair's channel. */
    method Close(pair: FwPair, ghost i: nat, ghost ps: seq<Pair>, ghost all: set<object>)
      requires Is(ps, all) && i < |ps| && Contents()[i] == pair
      modifies pair
      ensures pair.closed && Is(ps[i := ps[i].(closed := true)], all) && Contents() == old(Contents())
    {
      pair.closed := true;
      var s := Contents();
      assert s == old(Contents());
      assert forall k :: 0 <= k < |s| ==> s[k] in s;
    }

    /** FwPoolFindClosed, FwPoolGet and FwPoolRemove, as HandleForwards calls them. */
    method TakeClosed(ghost ps: seq<Pair>, ghost all: set<object>) returns (pair: FwPair?, ghost rest: seq<Pair>)
      requires Is(ps, all)
      modifies this`used, this`history, items
      ensures if pair == null then Pool.FindClosed(ps).None? && rest == ps && Is(ps, all)
              else pair in all && Is(rest, all - {pair}) && Taken(ps, rest, pair.Value())
      ensures alloc == old(alloc)
    {
      hide Valid, SwapRemove, Pool.FindClosed, Pool.FindClosedFrom;
      var index := FindClosed();
      ClosedIs(ps, index);
      pair, rest := null, ps;
      if index >= 0 {
        pair := Get(index);
        rest := SwapRemove(ps, index);
        DescribesLess(Contents(), ps, index);
        var _ := Remove(index);
      }
    }

    /** What a pool that holds ps looks like, slot by slot. */
    lemma SlotFacts(ps: seq<Pair>, all: set<object>)
      requires Is(ps, all)
      ensures this in all && |ps| == used && (items == null ==> ps == [])
      ensures items != null ==> items in all && used <= items.Length && Contents() == items[0..used]
      ensures var s := Contents();
              && |s| == used && (forall p :: p in s ==> p == null || p in all)
              && (forall k :: 0 <= k < |s| ==> s[k] in s && s[k] != null && s[k].Value() == ps[k])
              && (forall j, k :: 0 <= j < k < |s| ==> s[j] != s[k])
    {
    }

    method ReleaseSlot(i: nat, calls: Calls)
      requires items != null && i < used <= items.Length
      modifies items, items[i], calls`log
      ensures items[i + 1..used] == old(items[i + 1..used])
      ensures calls.log ==
        if old(items[i]) == null then old(calls.log) else Released(old(calls.log), old(items[i].Value()))
    {
      hide Released;
      var item := items[i];
      if item != null {
        item.Release(calls);
        items[i] := null;
      }
    }

    /** FwPoolDone: every pair still in the pool is released, once and in order. */
    method Done(calls: Calls, ghost ps: seq<Pair>, ghost all: set<object>)
      requires Is(ps, all) && calls !in all
      modifies this, items, all, calls`log
      ensures calls.log == ReleasedAll(old(calls.log), ps) && used == alloc == 0 && items == null
    {
      hide Is, Valid, Contents, Describes, Released;
      ghost var s := Contents();
      SlotFacts(ps, all);
      if items != null {
        var i := 0;
        while i < used
          modifies items, calls`log, set p | p in s
          invariant 0 <= i <= used == |ps| && used <= items.Length && items[i..used] == s[i..]
          invariant ReleasedAll(calls.log, ps[i..]) == ReleasedAll(old(calls.log), ps)
          invariant forall k :: i <= k < |s| ==> s[k] in s && s[k] != null && s[k].Value() == ps[k]
        {
          assert items[i..used][0] == items[i] && s[i..][0] == s[i];
          assert ps[i..][1..] == ps[i + 1..];
          ReleaseSlot(i, calls);
          i := i + 1;
        }
        items := null;
      }
      used, alloc, history := 0, 0, [];
    }

    /** Adding a pair, and filling it in when that worked. */
    method Enlist(pair: FwPair, source: Endpoint, destiny: Endpoint, reallocated: bool, ghost ps: seq<Pair>,
                  ghost all: set<object>)
      returns (r: Stored)
      requires Is(ps, all) && pair !in all
      modifies this, items, pair
      ensures r == (if |ps| == old(alloc) && !reallocated then PastTheEnd else At(|ps|))
      ensures r.PastTheEnd? ==> Is(ps, all) && Contents() == old(Contents()) && alloc == old(alloc)
      ensures r.At? ==>
                && items != null && (items == old(items) || fresh(items)) && Contents() == old(Contents()) + [pair]
                && Is(ps + [Pair(pair.id, source.channel, destiny.channel, old(pair.closed))], all + {pair, items})
                && alloc == (if |ps| == old(alloc) then old(alloc) + POOL_ALLOC_SIZE else old(alloc))
    {
      hide ShapeAfter;
      r := Add(pair, reallocated);
      if r.At? {
        pair.context, pair.source, pair.destiny := true, source, destiny;
        assert Describes(old(Contents()), ps);
        DescribesMore(old(Contents()), ps, pair);
      }
    }
  }
}
