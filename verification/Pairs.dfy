/**
 The pairs alone.  Whatever becomes of sessions and channels, the calls that make and free pairs keep
 books of their own: in every reachable state the pairs that are live are those in the pool, and those
 that were allocated for a full pool whose realloc then failed.
 */
module PairLedger {
  import opened Common
  import opened Ledger
  import opened Pool
  import opened Session
  import opened Handles
  import opened Release
  import opened Growth

  predicate IsPairOp(op: Op) { op.PairNew? || op.PairFree? }

  function PairCalls(log: seq<Op>): seq<Op> {
    if log == [] then []
    else PairCalls(log[..|log| - 1]) + (if IsPairOp(log[|log| - 1]) then [log[|log| - 1]] else [])
  }

  /** What the calls on pairs leave. */
  function PairBooks(log: seq<Op>): Books { Replay(PairCalls(log)) }

  lemma OneCall(log: seq<Op>, op: Op)
    ensures PairBooks(log + [op]) == if IsPairOp(op) then Post(PairBooks(log), op) else PairBooks(log)
  {
    assert (log + [op])[..|log|] == log;
    assert (PairCalls(log) + [op])[..|PairCalls(log)|] == PairCalls(log);
    assert PairCalls(log) + [] == PairCalls(log);
  }

  /** No call on a pair between c and d. */
  predicate NoPairCalls(c: Ctx, d: Ctx) { PairBooks(d.log) == PairBooks(c.log) }

  lemma LogPlain(c: Ctx, op: Op)
    requires !IsPairOp(op)
    ensures NoPairCalls(c, Log(c, op))
  {
    OneCall(c.log, op);
  }

  lemma DropPlain(c: Ctx, h: Option<Handle>)
    ensures NoPairCalls(c, DropIfSome(c, h))
  {
    hide PairBooks;
    if h.Some? {
      LogPlain(c, ChannelUse(h.value));
      LogPlain(Log(c, ChannelUse(h.value)), ChannelFree(h.value));
    }
  }

  lemma RefusePlain(c: Ctx, src: Option<Handle>, dst: Option<Handle>)
    ensures NoPairCalls(c, Refuse(c, src, dst))
  {
    hide PairBooks, DropIfSome;
    DropPlain(c, dst);
    DropPlain(DropIfSome(c, dst), src);
  }

  lemma ReleaseBooks(c: Ctx, p: Pair)
    ensures PairBooks(ReleasePair(c, p).log) == Post(PairBooks(c.log), PairFree(p.id))
  {
    hide PairBooks, DropIfSome, Post;
    DropPlain(c, p.source);
    DropPlain(DropIfSome(c, p.source), p.destiny);
    OneCall(DropIfSome(DropIfSome(c, p.source), p.destiny).log, PairFree(p.id));
  }

  lemma CloseSessionsPlain(c: Ctx)
    ensures NoPairCalls(c, CloseSessions(c))
  {
    hide PairBooks, DropIfSome;
    DropPlain(c, c.haasChannel);
    var c1 := DropIfSome(c, c.haasChannel);
    if c.haasSession.Some? {
      LogPlain(c1, SessionFree(c.haasSession.value));
    }
    var c2 := CloseIfSome(c1, c.haasSession);
    DropPlain(c2, c.trapChannel);
    LogPlain(DropIfSome(c2, c.trapChannel), SessionFree(c.trapSession));
  }

  // ---------------------------------------------------------------- the invariant

  predicate Distinct(items: seq<Pair>) {
    forall i, j :: 0 <= i < j < |items| ==> items[i].id != items[j].id
  }

  /** Live are exactly the pooled pairs and the lost ones. */
  predicate Kept(b: Books, items: seq<Pair>, next: Handle, lost: set<Handle>) {
    && b.ok && b.issued <= next && (forall h :: h in b.pairs ==> h < b.issued)
    && b.pairs == PoolIds(items) + lost && PoolIds(items) !! lost && Distinct(items)
  }

  predicate PairsKept(c: Ctx, lost: set<Handle>) { Kept(PairBooks(c.log), Items(c), c.next, lost) }

  lemma PlainKeeps(c: Ctx, d: Ctx, lost: set<Handle>)
    requires PairsKept(c, lost) && NoPairCalls(c, d) && Items(d) == Items(c) && d.next >= c.next
    ensures PairsKept(d, lost)
  {
  }

  lemma FreeKeeps(b: Books, items: seq<Pair>, i: nat, rest: seq<Pair>, next: Handle, lost: set<Handle>)
    requires Kept(b, items, next, lost) && i < |items|
    requires PoolIds(rest) == PoolIds(items) - {items[i].id} && Distinct(rest)
    ensures Kept(Post(b, PairFree(items[i].id)), rest, next, lost)
  {
    assert items[i] in items && items[i].id in PoolIds(items);
  }

  lemma SwapRemoveIds(items: seq<Pair>, i: nat)
    requires i < |items| && Distinct(items)
    ensures PoolIds(SwapRemove(items, i)) == PoolIds(items) - {items[i].id} && Distinct(SwapRemove(items, i))
  {
    var rest, last := SwapRemove(items, i), |items| - 1;
    assert forall k :: 0 <= k < |rest| ==> rest[k] == items[if k == i then last else k];
    forall k | 0 <= k < |items| && k != i
      ensures items[k] in rest
    {
      assert items[k] == rest[if k == last then i else k];
    }
  }

  lemma FirstIds(items: seq<Pair>)
    requires items != [] && Distinct(items)
    ensures PoolIds(items[1..]) == PoolIds(items) - {items[0].id} && Distinct(items[1..])
  {
    assert forall k :: 0 < k < |items| ==> items[k] == items[1..][k - 1] && items[k] in items[1..];
  }

  /** A pair taken out of the pool and released. */
  lemma TakenKeeps(c: Ctx, i: nat, rest: seq<Pair>, lost: set<Handle>)
    requires PairsKept(c, lost) && i < |Items(c)|
    requires PoolIds(rest) == PoolIds(Items(c)) - {Items(c)[i].id} && Distinct(rest)
    ensures PairsKept(ReleasePair(c.(pool := c.pool.(items := rest)), Items(c)[i]), lost)
  {
    hide PairBooks, Kept, ReleasePair, Post;
    var c1, p := c.(pool := c.pool.(items := rest)), Items(c)[i];
    ReleaseBooks(c1, p);
    ReleasePairOnlyLogs(c1, p);
    FreeKeeps(PairBooks(c.log), Items(c), i, rest, c.next, lost);
  }

  lemma {:induction false} ReleaseClosedKeepsPairs(c: Ctx, lost: set<Handle>)
    requires PairsKept(c, lost)
    ensures PairsKept(ReleaseClosed(c), lost)
    decreases |Items(c)|
  {
    hide PairBooks, ReleasePair, SwapRemove, PoolIds;
    var f := Pool.FindClosed(Items(c));
    if f.Some? {
      var rest := SwapRemove(Items(c), f.value);
      SwapRemoveIds(Items(c), f.value);
      TakenKeeps(c, f.value, rest, lost);
      ReleasePairOnlyLogs(c.(pool := c.pool.(items := rest)), Items(c)[f.value]);
      FewerIds(Items(c), f.value);
      ReleaseClosedKeepsPairs(ReleaseAt(c, f.value), lost);
    }
  }

  lemma FewerIds(items: seq<Pair>, i: nat)
    requires i < |items|
    ensures |SwapRemove(items, i)| < |items|
  {
  }

  lemma {:induction false} DropPoolKeepsPairs(c: Ctx, lost: set<Handle>)
    requires PairsKept(c, lost)
    ensures PairsKept(DropPool(c), lost)
    decreases |Items(c)|
  {
    hide PairBooks, ReleasePair, PoolIds;
    if c.pool.ForwardPool? && c.pool.items != [] {
      var rest := c.pool.items[1..];
      FirstIds(Items(c));
      TakenKeeps(c, 0, rest, lost);
      ReleasePairOnlyLogs(c.(pool := c.pool.(items := rest)), c.pool.items[0]);
      DropPoolKeepsPairs(ReleasePair(c.(pool := c.pool.(items := rest)), c.pool.items[0]), lost);
    } else {
      assert Items(DropPool(c)) == Items(c);
    }
  }

  // ---------------------------------------------------------------- the events

  /** An allocated pair meets a failed realloc on a full pool. */
  predicate PairLost(c: Ctx, e: Event) {
    && e.DirectTcpip? && c.pool.ForwardPool? && e.accepted && e.pairNew && Full(c) && !e.reallocated
    && c.mode != Deny && c.mode != Fake && (c.mode == Allow ==> c.haasSession.Some? && e.dstNew && e.openOk)
  }

  /** The pair that is lost: its handle comes after those of the one or two channels opened for it. */
  function LostNow(c: Ctx, e: Event): set<Handle> {
    if !PairLost(c, e) then {} else {c.next + (if c.mode == Allow then 2 else 1)}
  }

  lemma OpenFarPlain(c: Ctx, dstNew: bool, openOk: bool)
    ensures NoPairCalls(c, OpenFar(c, dstNew, openOk).c)
    ensures OpenFar(c, dstNew, openOk).c.next >= c.next
  {
    hide PairBooks;
    if c.haasSession.Some? {
      var c1 := OpenChannel(c, c.haasSession.value);
      LogPlain(c, ChannelNew(c.next, c.haasSession.value));
      LogPlain(c1, ChannelFree(c.next));
    }
  }

  lemma NewPairKeeps(b: Books, items: seq<Pair>, p: Pair, next: Handle, lost: set<Handle>)
    requires Kept(b, items, next, lost) && p.id == next
    ensures var d := Post(b, PairNew(next));
            && Kept(d, items + [p], next + 1, lost) && Kept(d, items, next + 1, lost + {next})
            && Kept(Post(d, PairFree(next)), items, next + 1, lost)
  {
    assert forall q :: q in items ==> q.id in PoolIds(items);
    assert PoolIds(items + [p]) == PoolIds(items) + {next};
    var d := Post(b, PairNew(next));
    assert d.pairs - {next} == b.pairs;
    forall i, j | 0 <= i < j < |items + [p]|
      ensures (items + [p])[i].id != (items + [p])[j].id
    {
      assert items[i] in items;
    }
  }

  /** The pair just made, in the books. */
  lemma MadeKeeps(c: Ctx, p: Pair, lost: set<Handle>)
    requires PairsKept(c, lost) && p.id == c.next
    ensures var b := PairBooks(c.log + [PairNew(c.next)]);
            && Kept(b, Items(c) + [p], c.next + 1, lost) && Kept(b, Items(c), c.next + 1, lost + {c.next})
            && Kept(PairBooks(c.log + [PairNew(c.next)] + [PairFree(c.next)]), Items(c), c.next + 1, lost)
  {
    hide PairBooks, Kept, Post;
    OneCall(c.log, PairNew(c.next));
    OneCall(c.log + [PairNew(c.next)], PairFree(c.next));
    NewPairKeeps(PairBooks(c.log), Items(c), p, c.next, lost);
  }

  lemma RefusedStoreKeepsPairs(c: Ctx, src: Handle, dst: Option<Handle>, pairNew: bool, reallocated: bool,
                               lost: set<Handle>)
    requires PairsKept(c, lost) && c.pool.NoPool?
    ensures PairsKept(Store(c, src, dst, pairNew, reallocated), lost)
  {
    hide PairBooks, Kept, Refuse;
    var c1 := if pairNew then Log(Log(c, PairNew(c.next)).(next := c.next + 1), PairFree(c.next)) else c;
    MadeKeeps(c, Pair(c.next, None, None, false), lost);
    RefuseKeepsPairs(c1, Some(src), dst, lost);
  }

  lemma StoreKeepsPairs(c: Ctx, src: Handle, dst: Option<Handle>, pairNew: bool, reallocated: bool, lost: set<Handle>)
    requires PairsKept(c, lost)
    ensures var gone := if c.pool.ForwardPool? && Full(c) && !reallocated && pairNew then {c.next} else {};
            PairsKept(Store(c, src, dst, pairNew, reallocated), lost + gone)
  {
    hide PairBooks, Kept, Refuse, AddPair, Full;
    assert lost + {} == lost;
    if c.pool.NoPool? {
      RefusedStoreKeepsPairs(c, src, dst, pairNew, reallocated, lost);
    } else {
      var p := Pair(c.next, Some(src), dst, false);
      var c1 := if pairNew then Log(c, PairNew(c.next)).(next := c.next + 1) else c;
      FullAside(c, c1);
      MadeKeeps(c, p, lost);
      LogPlain(c1, Undefined);
      AddedItems(c1, p);
    }
  }

  lemma AddedItems(c: Ctx, p: Pair)
    requires c.pool.ForwardPool?
    ensures Items(AddPair(c, p)) == Items(c) + [p] && AddPair(c, p).log == c.log && AddPair(c, p).next == c.next
  {
  }

  lemma FarAccepts(c: Ctx, dstNew: bool, openOk: bool)
    ensures var far := OpenFar(c, dstNew, openOk);
            && (far.accept <==> (c.mode == Allow ==> c.haasSession.Some? && dstNew && openOk))
            && (far.accept ==> far.c.next == c.next + (if c.mode == Allow then 1 else 0))
            && far.c.pool == c.pool && far.c.mode == c.mode
  {
  }

  lemma RefuseKeepsPairs(c: Ctx, src: Option<Handle>, dst: Option<Handle>, lost: set<Handle>)
    requires PairsKept(c, lost)
    ensures PairsKept(Refuse(c, src, dst), lost)
  {
    hide PairBooks, Kept, Refuse;
    RefusePlain(c, src, dst);
    RefuseOnlyLogs(c, src, dst);
  }

  lemma OpenKeepsPairs(c: Ctx, s: Handle, lost: set<Handle>)
    requires PairsKept(c, lost)
    ensures PairsKept(OpenChannel(c, s), lost)
  {
    hide PairBooks;
    LogPlain(c, ChannelNew(c.next, s));
  }

  lemma FarKeepsPairs(c: Ctx, dstNew: bool, openOk: bool, lost: set<Handle>)
    requires PairsKept(c, lost)
    ensures PairsKept(OpenFar(c, dstNew, openOk).c, lost)
  {
    hide PairBooks, OpenFar;
    OpenFarPlain(c, dstNew, openOk);
    FarAccepts(c, dstNew, openOk);
  }

  lemma DirectTcpipKeepsPairs(c: Ctx, e: Event, lost: set<Handle>)
    requires PairsKept(c, lost) && Enabled(c, e) && e.DirectTcpip? && (c.mode == Fake ==> c.pool.NoPool?)
    ensures PairsKept(Next(c, e), lost + LostNow(c, e))
  {
    hide PairsKept, Refuse, Store, Full, OpenFar;
    assert lost + {} == lost;
    if c.mode != Deny {
      var far := OpenFar(c, e.dstNew, e.openOk);
      FarKeepsPairs(c, e.dstNew, e.openOk, lost);
      FarAccepts(c, e.dstNew, e.openOk);
      var c1 := OpenChannel(far.c, c.trapSession);
      OpenKeepsPairs(far.c, c.trapSession, lost);
      if !far.accept || !e.accepted {
        RefuseKeepsPairs(far.c, None, far.dst, lost);
      } else if c.mode == Fake {
        RefuseKeepsPairs(c1, Some(far.c.next), far.dst, lost);
      } else {
        FullAside(c, c1);
        StoreKeepsPairs(c1, far.c.next, far.dst, e.pairNew, e.reallocated, lost);
      }
    }
  }

  lemma AuthPlain(c: Ctx, outcome: AuthOutcome)
    ensures NoPairCalls(c, DoAuthPassword(c, outcome))
  {
    hide PairBooks;
    LogPlain(c, SessionNew(c.next));
    LogPlain(OpenSession(c), SessionFree(c.next));
  }

  lemma NewChannelPlain(c: Ctx, trapNew: bool, haasNew: bool, openOk: bool)
    ensures NoPairCalls(c, DoNewChannel(c, trapNew, haasNew, openOk))
  {
    hide PairBooks, DropChannel;
    var c1 := OpenChannel(c, c.trapSession);
    LogPlain(c, ChannelNew(c.next, c.trapSession));
    DropChannelPlain(c1, c.next);
    if c.haasSession.Some? {
      var c2 := OpenChannel(c1, c.haasSession.value);
      LogPlain(c1, ChannelNew(c1.next, c.haasSession.value));
      DropChannelPlain(c2, c1.next);
      DropChannelPlain(DropChannel(c2, c1.next), c.next);
    }
  }

  lemma DropChannelPlain(c: Ctx, h: Handle)
    ensures NoPairCalls(c, DropChannel(c, h))
  {
    hide PairBooks;
    LogPlain(c, ChannelUse(h));
    LogPlain(Log(c, ChannelUse(h)), ChannelFree(h));
  }

  lemma WritePlain(c: Ctx, via: Option<Handle>, to: Option<Handle>, stderr: bool, accepted: seq<Byte>)
    ensures NoPairCalls(c, WriteTo(c, via, to, stderr, accepted))
  {
    hide PairBooks;
    if via.Some? && to.Some? {
      LogPlain(c, Write(via.value, to.value, stderr, accepted));
    }
  }

  lemma DataPlain(c: Ctx, e: Event)
    requires Enabled(c, e) && IsData(e)
    ensures NoPairCalls(c, Next(c, e))
  {
    hide WriteTo, PairBooks;
    var bytes := Accepted(e.data, e.wrote);
    WritePlain(c, c.haasSession, c.haasChannel, e.stderr, bytes);
    WritePlain(c, Some(c.trapSession), c.trapChannel, e.stderr, bytes);
    if e.ForwardData? {
      var p := Items(c)[e.i];
      WritePlain(c, c.haasSession, p.destiny, e.stderr, bytes);
      WritePlain(c, Some(c.trapSession), p.source, e.stderr, bytes);
    }
  }

  lemma TerminalPlain(c: Ctx, ok: bool)
    ensures NoPairCalls(c, DoPty(c, ok)) && NoPairCalls(c, DoShell(c, ok)) && NoPairCalls(c, DoWindow(c))
  {
    hide PairBooks;
    if c.haasChannel.Some? {
      LogPlain(c, PtyRequest(c.haasChannel.value, ok));
      LogPlain(c, ShellRequest(c.haasChannel.value, ok));
      LogPlain(c, WindowChange(c.haasChannel.value));
    }
  }

  lemma UsePlain(c: Ctx, h: Option<Handle>)
    ensures NoPairCalls(c, UseIfSome(c, h)) && OnlyLogged(c, UseIfSome(c, h))
  {
    hide PairBooks;
    if h.Some? {
      LogPlain(c, ChannelUse(h.value));
    }
  }

  lemma CloseAtKeeps(c: Ctx, i: nat, lost: set<Handle>)
    requires PairsKept(c, lost) && i < |Items(c)|
    ensures PairsKept(MarkClosed(c, i), lost)
  {
    hide PairBooks, PoolIds, Distinct;
    SameIds(Items(c), CloseAt(Items(c), i));
  }

  lemma SameIds(items: seq<Pair>, after: seq<Pair>)
    requires |after| == |items| && forall k :: 0 <= k < |items| ==> after[k].id == items[k].id
    ensures PoolIds(after) == PoolIds(items) && (Distinct(items) ==> Distinct(after))
  {
    forall h | h in PoolIds(items)
      ensures h in PoolIds(after)
    {
      var k :| 0 <= k < |items| && items[k].id == h;
      assert after[k] in after;
    }
  }

  lemma CallbackKeepsPairs(c: Ctx, e: Event, lost: set<Handle>)
    requires PairsKept(c, lost) && HandleInv(c) && Enabled(c, e) && IsCallback(e)
    ensures PairsKept(Next(c, e), lost + LostNow(c, e))
  {
    hide PairsKept, NoPairCalls, DoAuthPassword, DoNewChannel, DoDirectTcpip, DoForwardData, WriteTo, DoPty, DoShell,
         DoWindow;
    hide MarkClosed, Shaped, PairLost, SweepInBounds;
    assert lost + {} == lost;
    if e.DirectTcpip? {
      DirectTcpipKeepsPairs(c, e, lost);
    } else {
      NothingLost(c, e);
      if e.AuthPassword? {
        AuthPlain(c, e.outcome);
        AuthStep(c, e.outcome);
        AuthNext(c, e.outcome);
        PlainKeeps(c, Next(c, e), lost);
      } else if e.NewChannel? {
        NewChannelPlain(c, e.trapNew, e.haasNew, e.openOk);
        NewChannelNext(c, e.trapNew, e.haasNew, e.openOk);
        PlainKeeps(c, Next(c, e), lost);
      } else if e.ForwardClosed? {
        CloseAtKeeps(c, e.i, lost);
      } else if IsData(e) {
        DataPlain(c, e);
        DataStep(c, e);
        PlainKeeps(c, Next(c, e), lost);
      } else if e.MainClosed? {
        NothingCalled(c, Next(c, e));
        PlainKeeps(c, Next(c, e), lost);
      } else {
        var ok := if e.Window? then true else e.ok;
        TerminalPlain(c, ok);
        TerminalOnly(c, ok);
        PlainKeeps(c, Next(c, e), lost);
      }
    }
  }

  lemma NothingLost(c: Ctx, e: Event)
    requires !e.DirectTcpip?
    ensures LostNow(c, e) == {}
  {
  }

  lemma NothingCalled(c: Ctx, d: Ctx)
    requires d.log == c.log
    ensures NoPairCalls(c, d)
  {
  }

  lemma AuthNext(c: Ctx, outcome: AuthOutcome)
    ensures DoAuthPassword(c, outcome).next >= c.next && DoAuthPassword(c, outcome).pool == c.pool
  {
  }

  lemma NewChannelNext(c: Ctx, trapNew: bool, haasNew: bool, openOk: bool)
    ensures DoNewChannel(c, trapNew, haasNew, openOk).next >= c.next
    ensures DoNewChannel(c, trapNew, haasNew, openOk).pool == c.pool
  {
  }

  // ---------------------------------------------------------------- the loops and the end

  lemma TearDownKeepsPairs(c: Ctx, lost: set<Handle>)
    requires PairsKept(c, lost)
    ensures PairsKept(TearDown(c), lost)
  {
    hide PairBooks, DropPool, CloseSessions;
    var c1 := c.(phase := Closing);
    DropPoolKeepsPairs(c1, lost);
    DropPoolEmpties(c1);
    var c2 := DropPool(c1);
    CloseSessionsPlain(c2);
    CloseSessionsOnlyLogs(c2);
    PlainKeeps(c2, TearDown(c), lost);
  }

  lemma LogKeepsPairs(c: Ctx, op: Op, lost: set<Handle>)
    requires PairsKept(c, lost) && !IsPairOp(op)
    ensures PairsKept(Log(c, op), lost)
  {
    hide PairBooks;
    LogPlain(c, op);
  }

  lemma LeavingKeepsPairs(c: Ctx, lost: set<Handle>)
    requires PairsKept(c, lost)
    ensures PairsKept(TearDown(c), lost) && PairsKept(LeaveWait(c), lost) && PairsKept(LeaveRelay(c), lost)
  {
    hide PairsKept, TearDown;
    TearDownKeepsPairs(c, lost);
    LogKeepsPairs(c, EventRemove(c.trapSession), lost);
    TearDownKeepsPairs(Log(c, EventRemove(c.trapSession)), lost);
    if c.haasSession.Some? {
      var c1 := Log(c, EventRemove(c.haasSession.value));
      LogKeepsPairs(c, EventRemove(c.haasSession.value), lost);
      LogKeepsPairs(c1, EventRemove(c.trapSession), lost);
      TearDownKeepsPairs(Log(c1, EventRemove(c.trapSession)), lost);
    }
  }

  lemma PollKeepsPairs(c: Ctx, eof: bool, lost: set<Handle>)
    requires PairsKept(c, lost) && Enabled(c, PollForward(eof))
    ensures PairsKept(DoPollForward(c, eof), lost)
  {
    hide PairBooks, UseIfSome, MarkClosed;
    var i := c.sweeping.i;
    var p := Items(c)[i];
    var end := if c.sweeping.AtSource? then p.source else p.destiny;
    var c1 := UseIfSome(c, end);
    UsePlain(c, end);
    PlainKeeps(c, c1, lost);
    CloseAtKeeps(c1, i, lost);
  }

  lemma LoopKeepsPairs(c: Ctx, e: Event, lost: set<Handle>)
    requires PairsKept(c, lost) && Enabled(c, e) && !IsCallback(e)
    ensures PairsKept(Next(c, e), lost)
  {
    hide PairsKept, NoPairCalls, TearDown, LeaveWait, LeaveRelay, ReleaseClosed, DoPollForward, UseIfSome;
    LeavingKeepsPairs(c, lost);
    if e.SweepEnds? {
      ReleaseClosedKeepsPairs(c, lost);
      AsideKeeps(ReleaseClosed(c), Next(c, e), lost);
    } else if e.PollForward? {
      PollKeepsPairs(c, e.eof, lost);
    } else if e.RelayTop? {
      UsePlain(c, c.trapChannel);
      PlainKeeps(c, UseIfSome(c, c.trapChannel), lost);
      UsePlain(UseIfSome(c, c.trapChannel), c.haasChannel);
      PlainKeeps(UseIfSome(c, c.trapChannel), Next(c, e), lost);
    } else if e.KexDone? {
      LogKeepsPairs(c, EventAdd(c.trapSession), lost);
      AsideKeeps(Log(c, EventAdd(c.trapSession)), Log(c, EventAdd(c.trapSession)).(phase := Wait), lost);
    } else if e.SweepBegins? {
      AsideKeeps(c, Next(c, e), lost);
    } else {
      if c.haasSession.Some? {
        LogKeepsPairs(c, EventAdd(c.haasSession.value), lost);
        AsideKeeps(Log(c, EventAdd(c.haasSession.value)), Log(c, EventAdd(c.haasSession.value)).(phase := Relay), lost);
      }
      AsideKeeps(c, c.(phase := Relay), lost);
    }
  }

  lemma AsideKeeps(c: Ctx, d: Ctx, lost: set<Handle>)
    requires PairsKept(c, lost) && d == c.(phase := d.phase, sweeping := d.sweeping)
    ensures PairsKept(d, lost)
  {
    hide PairBooks;
    PlainKeeps(c, d, lost);
  }

  // ---------------------------------------------------------------- whole runs

  /** The pairs lost along a run, and whether there are none. */
  function Lost(start: Ctx, es: seq<Event>): set<Handle>
    requires Legal(start, es)
  {
    if es == [] then {} else Lost(start, es[..|es| - 1]) + LostNow(Run(start, es[..|es| - 1]), es[|es| - 1])
  }

  predicate NoPairLost(start: Ctx, es: seq<Event>)
    requires Legal(start, es)
  {
    es == [] || (NoPairLost(start, es[..|es| - 1]) && !PairLost(Run(start, es[..|es| - 1]), es[|es| - 1]))
  }

  lemma {:induction false} NoneLost(start: Ctx, es: seq<Event>)
    requires Legal(start, es)
    ensures NoPairLost(start, es) <==> Lost(start, es) == {}
  {
    hide Run, PairLost;
    if es != [] {
      NoneLost(start, es[..|es| - 1]);
    }
  }

  lemma StartKept(mode: Mode, poolNew: bool)
    ensures PairsKept(Start(mode, poolNew), {})
  {
    var c := Start(mode, poolNew);
    assert c.log == [] + [SessionNew(0)];
    OneCall([], SessionNew(0));
    assert Items(c) == [];
  }

  /** In every reachable state, whatever failed on the way, the pairs alive are the pooled and the lost. */
  lemma {:induction false} PairsAlwaysKept(mode: Mode, poolNew: bool, es: seq<Event>)
    requires Legal(Start(mode, poolNew), es)
    ensures PairsKept(Run(Start(mode, poolNew), es), Lost(Start(mode, poolNew), es))
  {
    hide PairsKept, Start, LostNow;
    if es == [] {
      StartKept(mode, poolNew);
    } else {
      var before, e := es[..|es| - 1], es[|es| - 1];
      var c, lost := Run(Start(mode, poolNew), before), Lost(Start(mode, poolNew), before);
      PairsAlwaysKept(mode, poolNew, before);
      HandleInvRun(mode, poolNew, before);
      if IsCallback(e) {
        CallbackKeepsPairs(c, e, lost);
      } else {
        LoopKeepsPairs(c, e, lost);
        NothingLost(c, e);
        assert lost + {} == lost;
      }
    }
  }

  /** How many pooled pairs have this id. */
  function Pooled(items: seq<Pair>, p: Handle): nat {
    if items == [] then 0 else Pooled(items[..|items| - 1], p) + (if items[|items| - 1].id == p then 1 else 0)
  }

  lemma {:induction false} PooledOnce(items: seq<Pair>, p: Handle)
    requires Distinct(items)
    ensures Pooled(items, p) == if p in PoolIds(items) then 1 else 0
  {
    if items != [] {
      var init, last := items[..|items| - 1], items[|items| - 1];
      PooledOnce(init, p);
      assert items == init + [last];
      assert PoolIds(items) == PoolIds(init) + {last.id};
      assert forall q :: q in init ==> q.id != last.id;
    }
  }

  predicate Tallies(b: Books, p: Handle, made: int, freed: int) {
    made == freed + (if p in b.pairs then 1 else 0) && made <= (if p < b.issued then 1 else 0)
  }

  lemma TallyStep(b: Books, op: Op, p: Handle, made: int, freed: int)
    requires (forall h :: h in b.pairs ==> h < b.issued) && IsPairOp(op) && Post(b, op).ok && Tallies(b, p, made, freed)
    ensures forall h :: h in Post(b, op).pairs ==> h < Post(b, op).issued
    ensures Tallies(Post(b, op), p, made + (if op == PairNew(p) then 1 else 0),
                    freed + (if op == PairFree(p) then 1 else 0))
  {
  }

  /** What the books of the pairs say, told of the log itself. */
  lemma {:induction false} CountsOf(log: seq<Op>, p: Handle)
    requires PairBooks(log).ok
    ensures Tallies(PairBooks(log), p, multiset(log)[PairNew(p)], multiset(log)[PairFree(p)])
    ensures forall h :: h in PairBooks(log).pairs ==> h < PairBooks(log).issued
  {
    hide Post, Tallies, PairBooks, IsPairOp;
    if log == [] {
      NothingCounted(p);
    } else {
      var init, op := log[..|log| - 1], log[|log| - 1];
      assert log == init + [op];
      OneCall(init, op);
      StillOk(PairBooks(init), op);
      CountsOf(init, p);
      CountOne(init, op, p);
      if IsPairOp(op) {
        TallyStep(PairBooks(init), op, p, multiset(init)[PairNew(p)], multiset(init)[PairFree(p)]);
      }
    }
  }

  lemma CountOne(init: seq<Op>, op: Op, p: Handle)
    ensures var log := multiset(init + [op]);
            && log[PairNew(p)] == multiset(init)[PairNew(p)] + (if op == PairNew(p) then 1 else 0)
            && log[PairFree(p)] == multiset(init)[PairFree(p)] + (if op == PairFree(p) then 1 else 0)
            && (!IsPairOp(op) ==> op != PairNew(p) && op != PairFree(p))
  {
    assert multiset(init + [op]) == multiset(init) + multiset{op};
  }

  lemma NothingCounted(p: Handle)
    ensures Tallies(PairBooks([]), p, 0, 0) && PairBooks([]).pairs == {}
  {
  }

  lemma StillOk(b: Books, op: Op)
    ensures Post(b, op).ok ==> b.ok
  {
  }

  lemma {:induction false} BooksPrefix(log: seq<Op>, n: nat)
    requires PairBooks(log).ok && n <= |log|
    ensures PairBooks(log[..n]).ok
  {
    hide PairBooks;
    if n < |log| {
      var init := log[..|log| - 1];
      assert log == init + [log[|log| - 1]];
      OneCall(init, log[|log| - 1]);
      BooksPrefix(init, n);
      assert init[..n] == log[..n];
    } else {
      assert log[..n] == log;
    }
  }

  /** The pair made at i is freed at exactly one place, later. */
  predicate FreedOnce(log: seq<Op>, i: nat)
    requires i < |log| && log[i].PairNew?
  {
    exists j :: i < j < |log| && log[j] == PairFree(log[i].p)
             && forall k :: 0 <= k < |log| && log[k] == PairFree(log[i].p) ==> k == j
  }

  /** A free comes after the pair was made. */
  lemma MadeBefore(log: seq<Op>, k: nat)
    requires PairBooks(log).ok && k < |log| && log[k].PairFree?
    ensures exists i :: 0 <= i < k && log[i] == PairNew(log[k].p)
  {
    hide PairBooks;
    var p := log[k].p;
    assert log[..k + 1] == log[..k] + [log[k]];
    BooksPrefix(log, k + 1);
    BooksPrefix(log, k);
    OneCall(log[..k], log[k]);
    CountsOf(log[..k], p);
    FreeOfLive(PairBooks(log[..k]), p);
    assert PairNew(p) in multiset(log[..k]);
  }

  lemma FreeOfLive(b: Books, p: Handle)
    requires Post(b, PairFree(p)).ok
    ensures p in b.pairs
  {
  }

  /** Two places that hold the same call count twice. */
  lemma CountTwice(log: seq<Op>, j: nat, k: nat)
    requires j < k < |log| && log[j] == log[k]
    ensures multiset(log)[log[j]] >= 2
  {
    assert log == log[..k] + log[k..];
    assert log[..k][j] in log[..k] && log[k..][0] in log[k..];
  }

  lemma FreedOnceIff(log: seq<Op>, i: nat)
    requires PairBooks(log).ok && i < |log| && log[i].PairNew?
    ensures FreedOnce(log, i) <==> log[i].p !in PairBooks(log).pairs
  {
    hide PairBooks;
    var p := log[i].p;
    CountsOf(log, p);
    assert PairNew(p) in multiset(log);
    if p !in PairBooks(log).pairs {
      assert PairFree(p) in multiset(log);
      var j :| 0 <= j < |log| && log[j] == PairFree(p);
      MadeBefore(log, j);
      var m :| 0 <= m < j && log[m] == PairNew(p);
      if m < i {
        CountTwice(log, m, i);
      } else if i < m {
        CountTwice(log, i, m);
      }
      forall k | 0 <= k < |log| && log[k] == PairFree(p)
        ensures k == j
      {
        if k < j {
          CountTwice(log, k, j);
        } else if j < k {
          CountTwice(log, j, k);
        }
      }
    } else {
      assert PairFree(p) !in multiset(log);
    }
  }

  /**
   The ledger of the pairs, in every reachable state and for every handle: a pair is made at most once,
   and it has been made but not freed exactly while it is in the pool, or for ever if it was lost.
   */
  lemma {:induction false} PairCount(mode: Mode, poolNew: bool, start: Ctx, es: seq<Event>, p: Handle)
    requires start == Start(mode, poolNew) && Legal(start, es)
    ensures var c := Run(start, es);
            && multiset(c.log)[PairNew(p)] <= 1
            && multiset(c.log)[PairNew(p)]
               == multiset(c.log)[PairFree(p)] + Pooled(Items(c), p) + (if p in Lost(start, es) then 1 else 0)
  {
    hide Run, Legal, Lost, PairBooks, Start;
    PairsAlwaysKept(mode, poolNew, es);
    CountsOf(Run(start, es).log, p);
    PooledOnce(Items(Run(start, es)), p);
  }

  lemma DoneIsEmpty(mode: Mode, poolNew: bool, es: seq<Event>)
    requires Legal(Start(mode, poolNew), es) && Run(Start(mode, poolNew), es).phase == Done
    ensures Items(Run(Start(mode, poolNew), es)) == []
  {
    hide Next;
    var before, e := es[..|es| - 1], es[|es| - 1];
    HandleInvRun(mode, poolNew, before);
    StartsAtKex(mode, poolNew);
    var c := Run(Start(mode, poolNew), before);
    if IsCallback(e) {
      CallbackStep(c, e);
    } else {
      OnlyLeavingIsDone(c, e);
    }
  }

  lemma StartsAtKex(mode: Mode, poolNew: bool)
    ensures Start(mode, poolNew).phase == Kex
  {
  }

  /**
   Exactly-once release of pairs over a whole session: every pair that was made is freed exactly once,
   later - by a sweep, by the final release, or by the refusal without a pool - if and only if no
   allocated pair met a failed realloc on a full pool.  Logins, failed opens and missing pairs do not
   matter.
   */
  lemma {:induction false} PairsReleasedOnce(mode: Mode, poolNew: bool, start: Ctx, es: seq<Event>)
    requires start == Start(mode, poolNew) && Legal(start, es) && Run(start, es).phase == Done
    ensures var log := Run(start, es).log;
            NoPairLost(start, es) <==> forall i :: 0 <= i < |log| && log[i].PairNew? ==> FreedOnce(log, i)
  {
    hide Run, Legal, Lost, PairBooks, FreedOnce, NoPairLost;
    PairsAlwaysKept(mode, poolNew, es);
    NoneLost(start, es);
    DoneIsEmpty(mode, poolNew, es);
    var log, lost := Run(start, es).log, Lost(start, es);
    assert PairBooks(log).pairs == lost;
    forall i | 0 <= i < |log| && log[i].PairNew?
      ensures FreedOnce(log, i) <==> log[i].p !in lost
    {
      FreedOnceIff(log, i);
    }
    if p: Handle :| p in lost {
      CountsOf(log, p);
      assert PairNew(p) in multiset(log);
      var i :| 0 <= i < |log| && log[i] == PairNew(p);
      assert !FreedOnce(log, i);
    }
  }
}
