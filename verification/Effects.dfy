/**
 What each event does, spelled out: the calls it appends to the log, one by one, and what becomes of the
 fields.  Nothing here names the functions by which the transition system computes its steps.
 */
module Effects {
  import opened Common
  import opened Ledger
  import opened Pool
  import opened Session
  import opened Handles
  import Growth

  /** d is c with these calls made since, some handles given out, and nothing else changed. */
  predicate Called(c: Ctx, d: Ctx, ops: seq<Op>, handles: nat) {
    d == c.(log := c.log + ops, next := c.next + handles)
  }

  /** Closing and freeing a channel, if there is one. */
  function Close(h: Option<Handle>): seq<Op> {
    if h.Some? then [ChannelUse(h.value), ChannelFree(h.value)] else []
  }

  /** The session lives and the client is not cut off: whatever callback its channels allow may come. */
  predicate Hearing(c: Ctx) { (c.phase == Kex || c.phase == Wait || c.phase == Relay) && !c.disconnected }

  // ---------------------------------------------------------------- logging in

  /** A successful login keeps the session it opened; a failed one counts, keeps none, and the third cuts off. */
  lemma LoginDoes(c: Ctx, outcome: AuthOutcome)
    requires Hearing(c)
    ensures Enabled(c, AuthPassword(outcome))
    ensures var d := Next(c, AuthPassword(outcome));
            match outcome
            case AuthSucceeds =>
              d == c.(log := c.log + [SessionNew(c.next)], next := c.next + 1,
                      haasSession := Some(c.next), authenticated := true)
            case NoSession =>
              d == c.(retries := c.retries + 1, disconnected := c.retries + 1 >= 3)
            case _ =>
              d == c.(log := c.log + [SessionNew(c.next), SessionFree(c.next)], next := c.next + 1,
                      retries := c.retries + 1, disconnected := c.retries + 1 >= 3)
  {
    hide AuthFailed;
    var tried := Log(OpenSession(c), SessionFree(c.next));
    assert c.log + [SessionNew(c.next)] + [SessionFree(c.next)] == c.log + [SessionNew(c.next), SessionFree(c.next)];
    FailureDoes(c);
    FailureDoes(tried);
  }

  lemma FailureDoes(c: Ctx)
    requires !c.disconnected
    ensures AuthFailed(c) == c.(retries := c.retries + 1, disconnected := c.retries + 1 >= 3)
  {
  }

  // ---------------------------------------------------------------- the client's channel

  /** What TrapNewChannel calls, whatever it comes to. */
  function NewChannelCalls(c: Ctx, trapNew: bool, haasNew: bool, openOk: bool): seq<Op> {
    var t, h := c.next, c.next + 1;
    if c.trapChannel.Some? || !trapNew then []
    else if c.haasSession.None? || !haasNew then
      [ChannelNew(t, c.trapSession), ChannelUse(t), ChannelFree(t)]
    else if openOk then
      [ChannelNew(t, c.trapSession), ChannelNew(h, c.haasSession.value)]
    else
      [ChannelNew(t, c.trapSession), ChannelNew(h, c.haasSession.value),
       ChannelUse(h), ChannelFree(h), ChannelUse(t), ChannelFree(t)]
  }

  lemma NewChannelLogs(c: Ctx, trapNew: bool, haasNew: bool, openOk: bool)
    ensures DoNewChannel(c, trapNew, haasNew, openOk).log == c.log + NewChannelCalls(c, trapNew, haasNew, openOk)
  {
  }

  /**
   With no client channel, a HaaS session and three successes both channel fields are set, to channels this
   event opened on the two sessions; in every other case they stay, and what was opened is closed and freed.
   */
  lemma NewChannelDoes(c: Ctx, trapNew: bool, haasNew: bool, openOk: bool)
    requires Hearing(c)
    ensures Enabled(c, NewChannel(trapNew, haasNew, openOk))
    ensures var d := Next(c, NewChannel(trapNew, haasNew, openOk));
            && d.log == c.log + NewChannelCalls(c, trapNew, haasNew, openOk)
            && d == c.(log := d.log, next := d.next, trapChannel := d.trapChannel, haasChannel := d.haasChannel)
            && if c.trapChannel.None? && c.haasSession.Some? && trapNew && haasNew && openOk then
                 && d.trapChannel == Some(c.next) && d.haasChannel == Some(c.next + 1)
                 && d.log == c.log + [ChannelNew(c.next, c.trapSession), ChannelNew(c.next + 1, c.haasSession.value)]
               else d.trapChannel == c.trapChannel && d.haasChannel == c.haasChannel
  {
    hide DoNewChannel;
    NewChannelLogs(c, trapNew, haasNew, openOk);
    NewChannelFields(c, trapNew, haasNew, openOk);
  }

  lemma NewChannelFields(c: Ctx, trapNew: bool, haasNew: bool, openOk: bool)
    ensures var d := DoNewChannel(c, trapNew, haasNew, openOk);
            && d == c.(log := d.log, next := d.next, trapChannel := d.trapChannel, haasChannel := d.haasChannel)
            && if c.trapChannel.None? && c.haasSession.Some? && trapNew && haasNew && openOk then
                 d.trapChannel == Some(c.next) && d.haasChannel == Some(c.next + 1)
               else d.trapChannel == c.trapChannel && d.haasChannel == c.haasChannel
  {
  }

  // ---------------------------------------------------------------- direct-tcpip requests

  /** In ALLOW the far channel can be opened: there is a HaaS session and malloc gave a channel. */
  predicate FarReached(c: Ctx, dstNew: bool) { c.haasSession.Some? && dstNew }

  /** The calls that settle whether there is a far channel, and the handles they take. */
  function FarCalls(c: Ctx, dstNew: bool, openOk: bool): seq<Op> {
    if c.mode != Allow || !FarReached(c, dstNew) then []
    else if openOk then [ChannelNew(c.next, c.haasSession.value)]
    else [ChannelNew(c.next, c.haasSession.value), ChannelFree(c.next)]
  }

  predicate FarGranted(c: Ctx, dstNew: bool, openOk: bool) { c.mode == Allow ==> FarReached(c, dstNew) && openOk }

  function FarChannel(c: Ctx, dstNew: bool): Option<Handle> {
    if c.mode == Allow && FarReached(c, dstNew) then Some(c.next) else None
  }

  lemma FarIs(c: Ctx, dstNew: bool, openOk: bool)
    ensures var far := OpenFar(c, dstNew, openOk);
            && Called(c, far.c, FarCalls(c, dstNew, openOk), if FarChannel(c, dstNew).Some? then 1 else 0)
            && far.dst == FarChannel(c, dstNew) && far.accept == FarGranted(c, dstNew, openOk)
  {
    var log := c.log;
    assert log + [] == log;
    if FarChannel(c, dstNew).Some? {
      var op, free := ChannelNew(c.next, c.haasSession.value), ChannelFree(c.next);
      assert log + [op] + [free] == log + [op, free];
    }
  }

  lemma RefuseIs(c: Ctx, src: Option<Handle>, dst: Option<Handle>)
    ensures Called(c, Refuse(c, src, dst), Close(dst) + Close(src), 0)
  {
    DropIs(c, dst);
    DropIs(DropIfSome(c, dst), src);
    assert c.log + Close(dst) + Close(src) == c.log + (Close(dst) + Close(src));
  }

  lemma DropIs(c: Ctx, h: Option<Handle>)
    ensures Called(c, DropIfSome(c, h), Close(h), 0)
  {
    if h.Some? {
      var use, free := ChannelUse(h.value), ChannelFree(h.value);
      assert c.log + [use] + [free] == c.log + [use, free];
    } else {
      assert c.log + [] == c.log;
    }
  }

  lemma MayAsk(c: Ctx, e: Event)
    requires e.DirectTcpip? && Hearing(c)
    ensures Enabled(c, e)
  {
  }

  /** In DENY a request calls nothing and changes nothing. */
  lemma DenyDoes(c: Ctx, e: Event)
    requires c.mode == Deny && e.DirectTcpip? && Hearing(c)
    ensures Enabled(c, e) && Next(c, e) == c
  {
  }

  /**
   A request that is not to be accepted - in ALLOW without a far channel, or where libssh gives no channel -
   closes and frees the far channel it made, if it made one, and changes nothing else.
   */
  lemma Refused(c: Ctx, e: Event)
    requires c.mode != Deny && e.DirectTcpip? && Enabled(c, e)
    requires !FarGranted(c, e.dstNew, e.openOk) || !e.accepted
    ensures var dst := FarChannel(c, e.dstNew);
            Called(c, Next(c, e), FarCalls(c, e.dstNew, e.openOk) + Close(dst), if dst.Some? then 1 else 0)
  {
    hide OpenFar, Refuse, FarCalls, FarGranted, FarChannel, Close, Store;
    var far := OpenFar(c, e.dstNew, e.openOk);
    FarIs(c, e.dstNew, e.openOk);
    RefuseIs(far.c, None, far.dst);
    var calls, dst := FarCalls(c, e.dstNew, e.openOk), FarChannel(c, e.dstNew);
    NoneClosed();
    assert Close(dst) + [] == Close(dst);
    assert c.log + calls + Close(dst) == c.log + (calls + Close(dst));
  }

  lemma NoneClosed()
    ensures Close(None) == []
  {
  }

  lemma FakeCalls(c: Ctx, dstNew: bool, openOk: bool, pairNew: bool, reallocated: bool)
    requires c.mode == Fake
    ensures DoDirectTcpip(c, dstNew, openOk, true, pairNew, reallocated)
         == c.(log := c.log + [ChannelNew(c.next, c.trapSession), ChannelUse(c.next), ChannelFree(c.next)],
               next := c.next + 1)
  {
    var src := c.next;
    RefuseIs(OpenChannel(c, c.trapSession), Some(src), None);
    assert c.log + [ChannelNew(src, c.trapSession)] + ([] + [ChannelUse(src), ChannelFree(src)])
        == c.log + [ChannelNew(src, c.trapSession), ChannelUse(src), ChannelFree(src)];
  }

  /**
   In FAKE an accepted request opens a channel on the client's session, and closes and frees it: these three
   calls and no other, whatever else may succeed or fail.
   */
  lemma FakeDoes(c: Ctx, e: Event)
    requires c.mode == Fake && e.DirectTcpip? && e.accepted && Hearing(c)
    ensures Enabled(c, e)
    ensures Next(c, e)
         == c.(log := c.log + [ChannelNew(c.next, c.trapSession), ChannelUse(c.next), ChannelFree(c.next)],
               next := c.next + 1)
  {
    hide DoDirectTcpip;
    FakeCalls(c, e.dstNew, e.openOk, e.pairNew, e.reallocated);
  }

  /** The pair of an accepted request, the calls that make it, and how many handles that takes. */
  function MadePair(c: Ctx, dst: Option<Handle>): Pair {
    var src := if dst.Some? then c.next + 1 else c.next;
    Pair(src + 1, Some(src), dst, false)
  }

  /** There is room for one more pair: in the slots there are, or in those a realloc gives. */
  predicate Room(c: Ctx, reallocated: bool) {
    c.pool.ForwardPool? && (|c.pool.items| >= c.pool.alloc ==> reallocated)
  }

  lemma PooledDoes(c: Ctx, src: Handle, dst: Option<Handle>, reallocated: bool)
    requires Room(c, reallocated)
    ensures var d := Store(c, src, dst, true, reallocated);
            && d.log == c.log + [PairNew(c.next)] && d.pool.ForwardPool?
            && d.pool.items == c.pool.items + [Pair(c.next, Some(src), dst, false)]
            && d.pool.alloc == (if |c.pool.items| >= c.pool.alloc then c.pool.alloc + 10 else c.pool.alloc)
            && d == c.(log := d.log, next := c.next + 1, pool := d.pool)
  {
  }

  lemma AcceptedIs(c: Ctx, e: Event)
    requires c.mode != Deny && c.mode != Fake && e.DirectTcpip? && Enabled(c, e) && e.accepted
    ensures var far := OpenFar(c, e.dstNew, e.openOk);
            far.accept ==>
              Next(c, e) == Store(OpenChannel(far.c, c.trapSession), far.c.next, far.dst, e.pairNew, e.reallocated)
  {
    hide OpenFar, Store, Refuse, OpenChannel, Enabled;
  }

  lemma PooledOver(c: Ctx, far: Ctx, calls: seq<Op>, handles: nat, dst: Option<Handle>, reallocated: bool)
    requires far == c.(log := c.log + calls, next := c.next + handles) && Room(c, reallocated)
    ensures var d, src := Store(OpenChannel(far, c.trapSession), far.next, dst, true, reallocated), c.next + handles;
            && d.log == c.log + calls + [ChannelNew(src, c.trapSession), PairNew(src + 1)] && d.pool.ForwardPool?
            && d.pool.items == c.pool.items + [Pair(src + 1, Some(src), dst, false)]
            && d.pool.alloc == (if |c.pool.items| >= c.pool.alloc then c.pool.alloc + 10 else c.pool.alloc)
            && d == c.(log := d.log, next := src + 2, pool := d.pool)
  {
    hide Store;
    var a, b := ChannelNew(far.next, c.trapSession), PairNew(far.next + 1);
    PooledDoes(OpenChannel(far, c.trapSession), far.next, dst, reallocated);
    assert far.log + [a] + [b] == far.log + [a, b];
  }

  /** The pair an accepted request adds, and the calls that make it. */
  lemma Accepted(c: Ctx, e: Event)
    requires c.mode != Deny && c.mode != Fake && e.DirectTcpip? && Enabled(c, e)
    requires FarGranted(c, e.dstNew, e.openOk) && e.accepted && e.pairNew && Room(c, e.reallocated)
    ensures var d, dst := Next(c, e), FarChannel(c, e.dstNew);
            var p := MadePair(c, dst);
            && d.log == c.log + FarCalls(c, e.dstNew, e.openOk)
                        + [ChannelNew(p.source.value, c.trapSession), PairNew(p.id)]
            && Items(d) == Items(c) + [p]
            && d == c.(log := d.log, next := p.id + 1, pool := d.pool) && d.pool.ForwardPool?
            && d.pool.alloc == (if |Items(c)| >= c.pool.alloc then c.pool.alloc + 10 else c.pool.alloc)
  {
    hide OpenFar, Store, Refuse, Next, Enabled, FarCalls, FarChannel, FarGranted, OpenChannel, Called;
    var calls, dst := FarCalls(c, e.dstNew, e.openOk), FarChannel(c, e.dstNew);
    var far, handles := OpenFar(c, e.dstNew, e.openOk), if dst.Some? then 1 else 0;
    FarIs(c, e.dstNew, e.openOk);
    CalledIs(c, far.c, calls, handles);
    AcceptedIs(c, e);
    PooledOver(c, far.c, calls, handles, dst, e.reallocated);
  }

  /** In ALLOW there is then a far channel, and one call made it; in NULL and ECHO there is none. */
  lemma FarMade(c: Ctx, dstNew: bool, openOk: bool)
    requires c.mode != Deny && c.mode != Fake && FarGranted(c, dstNew, openOk)
    ensures var dst, calls := FarChannel(c, dstNew), FarCalls(c, dstNew, openOk);
            if c.mode == Allow then
              c.haasSession.Some? && dst == Some(c.next) && calls == [ChannelNew(c.next, c.haasSession.value)]
            else dst == None && calls == []
  {
  }

  /**
   An accepted request in ALLOW, with far channel, pair and room: the pool grows by one open pair, whose source
   this event opened on the client's session and whose destiny it opened on the HaaS session.  A full pool
   grows by ten slots.
   */
  lemma AllowDoes(c: Ctx, e: Event)
    requires c.mode == Allow && c.pool.ForwardPool? && c.haasSession.Some? && e.DirectTcpip? && Hearing(c)
    requires e.dstNew && e.openOk && e.accepted && e.pairNew && (|c.pool.items| >= c.pool.alloc ==> e.reallocated)
    ensures Enabled(c, e)
    ensures var d, n, haas := Next(c, e), c.next, c.haasSession.value;
            && d.log == c.log + [ChannelNew(n, haas), ChannelNew(n + 1, c.trapSession), PairNew(n + 2)]
            && Items(d) == Items(c) + [Pair(n + 2, Some(n + 1), Some(n), false)] && d.pool.ForwardPool?
            && d.pool.alloc == (if |Items(c)| >= c.pool.alloc then c.pool.alloc + 10 else c.pool.alloc)
            && d == c.(log := d.log, next := n + 3, pool := d.pool)
  {
    hide Next, Enabled, FarCalls, FarChannel;
    MayAsk(c, e);
    FarMade(c, e.dstNew, e.openOk);
    Accepted(c, e);
    var n := c.next;
    var a, b, made := ChannelNew(n, c.haasSession.value), ChannelNew(n + 1, c.trapSession), PairNew(n + 2);
    assert c.log + [a] + [b, made] == c.log + [a, b, made];
  }

  /** The same in NULL and in ECHO, where there is no destiny. */
  lemma NullAndEchoDo(c: Ctx, e: Event)
    requires (c.mode == Null || c.mode == Echo) && c.pool.ForwardPool? && e.DirectTcpip? && Hearing(c)
    requires e.accepted && e.pairNew && (|c.pool.items| >= c.pool.alloc ==> e.reallocated)
    ensures Enabled(c, e)
    ensures var d, n := Next(c, e), c.next;
            && d.log == c.log + [ChannelNew(n, c.trapSession), PairNew(n + 1)]
            && Items(d) == Items(c) + [Pair(n + 1, Some(n), None, false)] && d.pool.ForwardPool?
            && d.pool.alloc == (if |Items(c)| >= c.pool.alloc then c.pool.alloc + 10 else c.pool.alloc)
            && d == c.(log := d.log, next := n + 2, pool := d.pool)
  {
    hide Next, Enabled, FarCalls, FarChannel;
    MayAsk(c, e);
    FarMade(c, e.dstNew, e.openOk);
    Accepted(c, e);
    assert c.log + [] == c.log;
  }

  /**
   A request that is not accepted.  Without a HaaS session or a channel for it, in ALLOW, nothing is called;
   a far channel that does not open is freed, and then closed and freed once more; one that does is closed and
   freed when libssh gives no channel to the client.  In the other modes nothing is called.
   */
  lemma RefusedDoes(c: Ctx, e: Event)
    requires e.DirectTcpip? && Hearing(c)
    ensures Enabled(c, e)
    ensures var d, n := Next(c, e), c.next;
            && (c.mode == Allow && (c.haasSession.None? || !e.dstNew) ==> d == c)
            && (c.mode == Allow && c.haasSession.Some? && e.dstNew && !e.openOk ==>
                  d == c.(next := n + 1, log := c.log + [ChannelNew(n, c.haasSession.value), ChannelFree(n),
                                                         ChannelUse(n), ChannelFree(n)]))
            && (c.mode == Allow && c.haasSession.Some? && e.dstNew && e.openOk && !e.accepted ==>
                  d == c.(next := n + 1, log := c.log + [ChannelNew(n, c.haasSession.value), ChannelUse(n),
                                                         ChannelFree(n)]))
            && (c.mode != Allow && !e.accepted ==> d == c)
  {
    hide DoDirectTcpip, FarCalls, FarChannel, Close;
    if c.mode == Deny {
      DenyDoes(c, e);
    }
    if c.mode != Deny && (!FarGranted(c, e.dstNew, e.openOk) || !e.accepted) {
      Refused(c, e);
      RefusedCalls(c, e);
    }
  }

  lemma RefusedCalls(c: Ctx, e: Event)
    requires e.DirectTcpip?
    ensures FarChannel(c, e.dstNew).Some? <==> c.mode == Allow && c.haasSession.Some? && e.dstNew
    ensures var n, calls := c.next, FarCalls(c, e.dstNew, e.openOk) + Close(FarChannel(c, e.dstNew));
            if c.mode != Allow || c.haasSession.None? || !e.dstNew then calls == [] && c.log + calls == c.log
            else if e.openOk then calls == [ChannelNew(n, c.haasSession.value), ChannelUse(n), ChannelFree(n)]
            else calls == [ChannelNew(n, c.haasSession.value), ChannelFree(n), ChannelUse(n), ChannelFree(n)]
  {
  }

  /** What becomes of a pair without a pool. */
  function Unpooled(id: Handle, pairNew: bool): seq<Op> { if pairNew then [PairNew(id), PairFree(id)] else [] }

  lemma UnpooledDoes(c: Ctx, src: Handle, dst: Option<Handle>, pairNew: bool, reallocated: bool)
    requires c.pool.NoPool?
    ensures Called(c, Store(c, src, dst, pairNew, reallocated),
                   Unpooled(c.next, pairNew) + (Close(dst) + Close(Some(src))), if pairNew then 1 else 0)
  {
    hide Store, Refuse, Close, Full, AddPair;
    Growth.StoreIs(c, src, dst, pairNew, reallocated);
    var made, closed := Unpooled(c.next, pairNew), Close(dst) + Close(Some(src));
    var c2 := if pairNew then Log(Log(c, PairNew(c.next)).(next := c.next + 1), PairFree(c.next)) else c;
    assert c2.log == c.log + made;
    RefuseIs(c2, Some(src), dst);
    assert c.log + made + closed == c.log + (made + closed);
  }

  /** Without a pool the pair, if there is one, and both channels are given back. */
  lemma NoPoolDoes(c: Ctx, e: Event)
    requires c.mode != Deny && c.mode != Fake && e.DirectTcpip? && Enabled(c, e)
    requires FarGranted(c, e.dstNew, e.openOk) && e.accepted && c.pool.NoPool?
    ensures var d, dst := Next(c, e), FarChannel(c, e.dstNew);
            var p := MadePair(c, dst);
            Called(c, d, FarCalls(c, e.dstNew, e.openOk) + [ChannelNew(p.source.value, c.trapSession)]
                         + (Unpooled(p.id, e.pairNew) + (Close(dst) + Close(p.source))),
                   (if dst.Some? then 1 else 0) + 1 + if e.pairNew then 1 else 0)
  {
    hide OpenFar, Refuse, Close, FarCalls, FarGranted, Store, Unpooled, Called;
    FarIs(c, e.dstNew, e.openOk);
    var far, dst := OpenFar(c, e.dstNew, e.openOk), FarChannel(c, e.dstNew);
    var far1 := if dst.Some? then 1 else 0;
    CalledIs(c, far.c, FarCalls(c, e.dstNew, e.openOk), far1);
    var c1 := OpenChannel(far.c, c.trapSession);
    OpenDoes(far.c, c.trapSession);
    CalledOn(c, far.c, c1, FarCalls(c, e.dstNew, e.openOk), [ChannelNew(far.c.next, c.trapSession)], far1, 1);
    CalledIs(c, c1, FarCalls(c, e.dstNew, e.openOk) + [ChannelNew(far.c.next, c.trapSession)], far1 + 1);
    UnpooledDoes(c1, far.c.next, far.dst, e.pairNew, e.reallocated);
    CalledOn(c, c1, Next(c, e), FarCalls(c, e.dstNew, e.openOk) + [ChannelNew(far.c.next, c.trapSession)],
             Unpooled(c1.next, e.pairNew) + (Close(far.dst) + Close(Some(far.c.next))), far1 + 1,
             if e.pairNew then 1 else 0);
  }

  lemma CalledIs(c: Ctx, d: Ctx, ops: seq<Op>, handles: nat)
    requires Called(c, d, ops, handles)
    ensures d == c.(log := c.log + ops, next := c.next + handles)
  {
  }

  lemma OpenDoes(c: Ctx, s: Handle)
    ensures Called(c, OpenChannel(c, s), [ChannelNew(c.next, s)], 1)
  {
  }

  lemma CalledOn(c: Ctx, d: Ctx, e: Ctx, x: seq<Op>, y: seq<Op>, m: nat, n: nat)
    requires Called(c, d, x, m) && Called(d, e, y, n)
    ensures Called(c, e, x + y, m + n)
  {
    assert c.log + x + y == c.log + (x + y);
  }

  lemma UndefinedOver(c: Ctx, far: Ctx, calls: seq<Op>, handles: nat, dst: Option<Handle>, e: Event)
    requires far == c.(log := c.log + calls, next := c.next + handles) && c.pool.ForwardPool? && e.DirectTcpip?
    requires !e.pairNew || !Room(c, e.reallocated)
    ensures var d := Store(OpenChannel(far, c.trapSession), far.next, dst, e.pairNew, e.reallocated);
            var src := c.next + handles;
            && d.log == c.log + calls + [ChannelNew(src, c.trapSession)]
                        + (if e.pairNew then [PairNew(src + 1), Undefined] else [Undefined])
            && d.pool == c.pool
  {
    hide Refuse, AddPair;
    var log := far.log + [ChannelNew(far.next, c.trapSession)];
    var made := PairNew(far.next + 1);
    assert log + [made] + [Undefined] == log + [made, Undefined];
  }

  /** With a pool but no room, or no pair, the calls end in what C leaves undefined. */
  lemma UndefinedDoes(c: Ctx, e: Event)
    requires c.mode != Deny && c.mode != Fake && e.DirectTcpip? && Enabled(c, e)
    requires FarGranted(c, e.dstNew, e.openOk) && e.accepted && c.pool.ForwardPool?
    requires !e.pairNew || !Room(c, e.reallocated)
    ensures var d, dst := Next(c, e), FarChannel(c, e.dstNew);
            var p := MadePair(c, dst);
            && d.log == c.log + FarCalls(c, e.dstNew, e.openOk) + [ChannelNew(p.source.value, c.trapSession)]
                        + (if e.pairNew then [PairNew(p.id), Undefined] else [Undefined])
            && d.pool == c.pool
  {
    hide OpenFar, Store, Refuse, Next, Enabled, FarCalls, FarChannel, FarGranted, OpenChannel, Called, Room;
    var calls, dst := FarCalls(c, e.dstNew, e.openOk), FarChannel(c, e.dstNew);
    var far, handles := OpenFar(c, e.dstNew, e.openOk), if dst.Some? then 1 else 0;
    FarIs(c, e.dstNew, e.openOk);
    CalledIs(c, far.c, calls, handles);
    AcceptedIs(c, e);
    UndefinedOver(c, far.c, calls, handles, dst, e);
  }

  // ---------------------------------------------------------------- forwards that end

  lemma MarkDoes(c: Ctx, i: nat)
    requires i < |Items(c)|
    ensures var d := MarkClosed(c, i);
            && |Items(d)| == |Items(c)| && Items(d)[i] == Items(c)[i].(closed := true)
            && (forall k :: 0 <= k < |Items(c)| && k != i ==> Items(d)[k] == Items(c)[k])
            && d == c.(pool := d.pool) && d.pool == c.pool.(items := Items(d))
  {
  }

  /** The pair at i, and no other, is marked closed. */
  lemma CloseDoes(c: Ctx, i: nat)
    requires Hearing(c) && i < |Items(c)|
    ensures Enabled(c, ForwardClosed(i))
    ensures var d := Next(c, ForwardClosed(i));
            && |Items(d)| == |Items(c)| && Items(d)[i] == Items(c)[i].(closed := true)
            && (forall k :: 0 <= k < |Items(c)| && k != i ==> Items(d)[k] == Items(c)[k])
            && d == c.(pool := d.pool) && d.pool == c.pool.(items := Items(d))
  {
    hide MarkClosed;
    MarkDoes(c, i);
  }

  lemma PollMarks(c: Ctx, eof: bool)
    requires !c.sweeping.NotPolling? && c.sweeping.i < |Items(c)|
    ensures var d, i := DoPollForward(c, eof), c.sweeping.i;
            var end := if c.sweeping.AtSource? then Items(c)[i].source else Items(c)[i].destiny;
            && |Items(d)| == |Items(c)| && d.pool == c.pool.(items := Items(d))
            && Items(d)[i] == (if end.Some? && eof then Items(c)[i].(closed := true) else Items(c)[i])
            && (forall k :: 0 <= k < |Items(c)| && k != i ==> Items(d)[k] == Items(c)[k])
  {
  }

  lemma PollLogs(c: Ctx, eof: bool)
    requires !c.sweeping.NotPolling? && c.sweeping.i < |Items(c)|
    ensures var d, i, count := DoPollForward(c, eof), c.sweeping.i, c.sweeping.count;
            var end := if c.sweeping.AtSource? then Items(c)[i].source else Items(c)[i].destiny;
            && d.log == c.log + (if end.Some? then [ChannelUse(end.value)] else [])
            && d.sweeping == (if c.sweeping.AtSource? then AtDestiny(i, count) else AtSource(i + 1, count))
            && d == c.(log := d.log, sweeping := d.sweeping, pool := d.pool)
  {
    assert c.log + [] == c.log;
  }

  /**
   A poll of an end that exists is one call on it, and marks the pair closed exactly if it gave SSH_EOF; the
   loop goes on to the destiny, or to the next source.
   */
  lemma PollDoes(c: Ctx, eof: bool)
    requires c.phase == Relay && !c.sweeping.NotPolling? && c.sweeping.i < c.sweeping.count <= |Items(c)|
    ensures Enabled(c, PollForward(eof))
    ensures var d, i, count := Next(c, PollForward(eof)), c.sweeping.i, c.sweeping.count;
            var end := if c.sweeping.AtSource? then Items(c)[i].source else Items(c)[i].destiny;
            && d.log == c.log + (if end.Some? then [ChannelUse(end.value)] else [])
            && |Items(d)| == |Items(c)|
            && Items(d)[i] == (if end.Some? && eof then Items(c)[i].(closed := true) else Items(c)[i])
            && (forall k :: 0 <= k < |Items(c)| && k != i ==> Items(d)[k] == Items(c)[k])
            && d.sweeping == (if c.sweeping.AtSource? then AtDestiny(i, count) else AtSource(i + 1, count))
            && d == c.(log := d.log, sweeping := d.sweeping, pool := d.pool)
            && d.pool == c.pool.(items := Items(d))
  {
    hide DoPollForward;
    PollMarks(c, eof);
    PollLogs(c, eof);
  }

  lemma SweepBeginsDoes(c: Ctx)
    requires c.phase == Relay && c.sweeping.NotPolling? && Items(c) != []
    ensures Enabled(c, SweepBegins) && Next(c, SweepBegins) == c.(sweeping := AtSource(0, |Items(c)|))
  {
  }

  /** Releasing a pair closes and frees its source, then its destiny, and then frees the pair. */
  lemma ReleaseDoes(c: Ctx, p: Pair)
    ensures Called(c, ReleasePair(c, p), Close(p.source) + Close(p.destiny) + [PairFree(p.id)], 0)
  {
    hide DropIfSome, Close;
    DropIs(c, p.source);
    DropIs(DropIfSome(c, p.source), p.destiny);
    assert c.log + Close(p.source) + Close(p.destiny) + [PairFree(p.id)]
        == c.log + (Close(p.source) + Close(p.destiny) + [PairFree(p.id)]);
  }

  // ---------------------------------------------------------------- data

  /**
   What arrives from the client goes to the HaaS channel, and back, with the session of that side selected; a
   write takes what libssh says it took, and a failed one takes nothing.
   */
  lemma DataDoes(c: Ctx, e: Event)
    requires Hearing(c) && ChannelsPaired(c)
    requires (e.TrapData? && c.trapChannel.Some?) || (e.HaasData? && c.haasChannel.Some?)
    requires -1 <= e.wrote <= |e.data| <= UINT_MAX
    ensures Enabled(c, e)
    ensures var taken := if e.wrote < 0 then [] else e.data[..e.wrote];
            && c.haasSession.Some? && c.haasChannel.Some? && c.trapChannel.Some?
            && Next(c, e) == c.(log := c.log + [
                 if e.TrapData? then Write(c.haasSession.value, c.haasChannel.value, e.stderr, taken)
                 else Write(c.trapSession, c.trapChannel.value, e.stderr, taken)])
  {
  }

  /** What a forward's data callback writes: across in ALLOW, back in ECHO, nothing in the other modes. */
  lemma ForwardDataDoes(c: Ctx, e: Event)
    requires Hearing(c) && e.ForwardData? && e.i < |Items(c)| && -1 <= e.wrote <= |e.data| <= UINT_MAX
    requires if e.fromSource then Items(c)[e.i].source.Some? else Items(c)[e.i].destiny.Some?
    ensures Enabled(c, e)
    ensures var p, taken := Items(c)[e.i], if e.wrote < 0 then [] else e.data[..e.wrote];
            var toSource := if c.mode == Allow then !e.fromSource else e.fromSource;
            var to := if toSource then p.source else p.destiny;
            var via := if toSource then Some(c.trapSession) else c.haasSession;
            if (c.mode == Allow || c.mode == Echo) && to.Some? && via.Some? then
              Next(c, e) == c.(log := c.log + [Write(via.value, to.value, e.stderr, taken)])
            else Next(c, e) == c
  {
  }

  // ---------------------------------------------------------------- the loops

  lemma ClosedDoes(c: Ctx)
    requires Enabled(c, MainClosed)
    ensures Next(c, MainClosed) == c.(closed := true)
  {
  }

  lemma KexDoes(c: Ctx, ok: bool)
    requires Enabled(c, KexDone(ok))
    ensures var d := Next(c, KexDone(ok));
            if ok then d == c.(phase := Wait, log := c.log + [EventAdd(c.trapSession)]) else d.phase == Done
  {
    hide TearDown;
    LeavingIsDone(c);
  }

  /**
   A poll that says leave, or finds a channel closed, ends the session; from the wait loop a client that has
   its channel and is logged in goes on to the relay loop, on both sessions; otherwise nothing happens.
   */
  lemma PollDoneDoes(c: Ctx, leave: bool)
    requires (c.phase == Wait || c.phase == Relay) && c.sweeping.NotPolling? && ChannelsPaired(c)
    ensures Enabled(c, PollDone(leave))
    ensures var d := Next(c, PollDone(leave));
            if leave || c.closed then d.phase == Done
            else if c.phase == Wait && c.trapChannel.Some? && c.authenticated then
              c.haasSession.Some? && d == c.(phase := Relay, log := c.log + [EventAdd(c.haasSession.value)])
            else d == c
  {
    hide LeaveWait, LeaveRelay;
    LeavingIsDone(c);
  }

  /** A turn of the relay loop polls the client's channel, and then the HaaS channel. */
  lemma TurnPolls(c: Ctx)
    requires c.phase == Relay && c.sweeping.NotPolling? && ChannelsPaired(c)
    ensures Enabled(c, RelayTop) && c.trapChannel.Some? && c.haasChannel.Some?
    ensures Next(c, RelayTop)
         == c.(log := c.log + [ChannelUse(c.trapChannel.value), ChannelUse(c.haasChannel.value)])
  {
    var t, h := ChannelUse(c.trapChannel.value), ChannelUse(c.haasChannel.value);
    assert c.log + [t] + [h] == c.log + [t, h];
  }
}
