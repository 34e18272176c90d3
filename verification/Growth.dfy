/** How the log grows: what no event can append to it. */
module Growth {
  import opened Common
  import opened Ledger
  import opened Pool
  import opened Session
  import opened Handles

  /** Which of the relayed operations a step may add to the log: none, a write, or a terminal request. */
  datatype Kind = Plumbing | Data | Terminal

  function KindOf(e: Event): Kind {
    if IsData(e) then Data else if e.Pty? || e.Shell? || e.Window? then Terminal else Plumbing
  }

  predicate Admits(kind: Kind, op: Op) {
    (op.Write? ==> kind == Data) && (op.PtyRequest? || op.ShellRequest? || op.WindowChange? ==> kind == Terminal)
  }

  /** op does not end s, if there is one. */
  predicate Untouched(op: Op, s: Option<Handle>) { s.Some? ==> Ended(op) != s }

  /** y continues x without ending s, and with operations of one kind only. */
  predicate Grows(x: seq<Op>, y: seq<Op>, s: Option<Handle>, kind: Kind) {
    && |x| <= |y| && y[..|x|] == x
    && forall k :: |x| <= k < |y| ==> Untouched(y[k], s) && Admits(kind, y[k])
  }

  lemma GrowsOn(x: seq<Op>, y: seq<Op>, z: seq<Op>, s: Option<Handle>)
    requires Grows(x, y, s, Plumbing) && Grows(y, z, s, Plumbing)
    ensures Grows(x, z, s, Plumbing)
  {
    assert z[..|x|] == z[..|y|][..|x|];
  }

  lemma LogGrows(c: Ctx, op: Op, s: Option<Handle>)
    requires Untouched(op, s) && Admits(Plumbing, op)
    ensures Grows(c.log, Log(c, op).log, s, Plumbing)
  {
  }

  /** h, if there is one, is not s. */
  predicate Other(h: Option<Handle>, s: Option<Handle>) { h.Some? ==> h != s }

  lemma DropGrows(c: Ctx, h: Option<Handle>, s: Option<Handle>)
    requires Other(h, s)
    ensures Grows(c.log, DropIfSome(c, h).log, s, Plumbing)
  {
  }

  predicate Clear(p: Pair, s: Option<Handle>) { Other(p.source, s) && Other(p.destiny, s) && Some(p.id) != s }

  predicate AllClear(items: seq<Pair>, s: Option<Handle>) { forall p :: p in items ==> Clear(p, s) }

  lemma ReleasePairGrows(c: Ctx, p: Pair, s: Option<Handle>)
    requires Clear(p, s)
    ensures Grows(c.log, ReleasePair(c, p).log, s, Plumbing)
  {
    hide DropIfSome, Grows;
    var c1 := DropIfSome(c, p.source);
    var c2 := DropIfSome(c1, p.destiny);
    DropGrows(c, p.source, s);
    DropGrows(c1, p.destiny, s);
    GrowsOn(c.log, c1.log, c2.log, s);
    LogGrows(c2, PairFree(p.id), s);
    GrowsOn(c.log, c2.log, ReleasePair(c, p).log, s);
  }

  lemma {:induction false} ReleaseClosedGrows(c: Ctx, s: Option<Handle>)
    requires AllClear(Items(c), s)
    ensures Grows(c.log, ReleaseClosed(c).log, s, Plumbing) && AllClear(Items(ReleaseClosed(c)), s)
    decreases |Items(c)|
  {
    hide Grows, Clear, ReleasePair;
    var f := FindClosed(Items(c));
    if f.Some? {
      var c1 := c.(pool := c.pool.(items := SwapRemove(c.pool.items, f.value)));
      var c2 := ReleasePair(c1, Items(c)[f.value]);
      ReleasePairOnlyLogs(c1, Items(c)[f.value]);
      ReleasePairGrows(c1, Items(c)[f.value], s);
      ReleaseClosedGrows(c2, s);
      GrowsOn(c.log, c2.log, ReleaseClosed(c).log, s);
    } else {
      Unchanged(c.log, s);
    }
  }

  lemma {:induction false} DropPoolGrows(c: Ctx, s: Option<Handle>)
    requires AllClear(Items(c), s)
    ensures Grows(c.log, DropPool(c).log, s, Plumbing)
    decreases |Items(c)|
  {
    hide Grows, Clear, ReleasePair;
    if c.pool.ForwardPool? && c.pool.items != [] {
      var c1 := c.(pool := c.pool.(items := c.pool.items[1..]));
      var c2 := ReleasePair(c1, c.pool.items[0]);
      ReleasePairOnlyLogs(c1, c.pool.items[0]);
      ReleasePairGrows(c1, c.pool.items[0], s);
      DropPoolGrows(c2, s);
      GrowsOn(c.log, c2.log, DropPool(c).log, s);
    } else {
      Unchanged(c.log, s);
    }
  }

  /** s was given out, and the context holds it in no role. */
  predicate Foreign(c: Ctx, s: Option<Handle>) {
    && (s.Some? ==> s.value < c.next)
    && Some(c.trapSession) != s && Other(c.haasSession, s) && Other(c.trapChannel, s) && Other(c.haasChannel, s)
    && AllClear(Items(c), s)
  }

  /** d holds no more than c. */
  lemma ForeignStays(c: Ctx, d: Ctx, s: Option<Handle>)
    requires Foreign(c, s) && d.next >= c.next && d.trapSession == c.trapSession
    requires forall p :: p in Items(d) ==> p in Items(c)
    requires d.haasSession == c.haasSession && d.trapChannel == c.trapChannel && d.haasChannel == c.haasChannel
    ensures Foreign(d, s)
  {
  }

  lemma NothingForeign(c: Ctx)
    ensures Foreign(c, None)
  {
  }

  lemma CloseSessionsGrows(c: Ctx, s: Option<Handle>)
    requires Foreign(c, s)
    ensures Grows(c.log, CloseSessions(c).log, s, Plumbing)
  {
    hide DropIfSome, Grows, AllClear;
    var c1 := DropIfSome(c, c.haasChannel);
    var c2 := CloseIfSome(c1, c.haasSession);
    var c3 := DropIfSome(c2, c.trapChannel);
    var c4 := Log(c3, SessionFree(c.trapSession));
    DropGrows(c, c.haasChannel, s);
    if c.haasSession.Some? {
      LogGrows(c1, SessionFree(c.haasSession.value), s);
    } else {
      Unchanged(c1.log, s);
    }
    GrowsOn(c.log, c1.log, c2.log, s);
    DropGrows(c2, c.trapChannel, s);
    GrowsOn(c.log, c2.log, c3.log, s);
    LogGrows(c3, SessionFree(c.trapSession), s);
    GrowsOn(c.log, c3.log, c4.log, s);
  }

  lemma TearDownGrows(c: Ctx, s: Option<Handle>)
    requires Foreign(c, s)
    ensures Spares(c, TearDown(c), s, Plumbing)
  {
    hide DropPool, Grows, AllClear, CloseSessions;
    var c1 := c.(phase := Closing);
    ForeignStays(c, c1, s);
    DropPoolGrows(c1, s);
    DropPoolEmpties(c1);
    EmptyClear(DropPool(c1), s);
    CloseSessionsGrows(DropPool(c1), s);
    GrowsOn(c.log, DropPool(c1).log, TearDown(c).log, s);
    CloseSessionsOnlyLogs(DropPool(c1));
  }

  lemma EmptyClear(c: Ctx, s: Option<Handle>)
    requires c.pool.NoPool?
    ensures AllClear(Items(c), s)
  {
  }

  lemma CloseSessionsOnlyLogs(c: Ctx)
    ensures CloseSessions(c) == c.(phase := Done, log := CloseSessions(c).log)
  {
    hide DropIfSome;
    DropOnlyLogs(c, c.haasChannel);
    DropOnlyLogs(CloseIfSome(DropIfSome(c, c.haasChannel), c.haasSession), c.trapChannel);
  }

  /** The step from c to d continues the log without ending s, and never takes s up again. */
  predicate Spares(c: Ctx, d: Ctx, s: Option<Handle>, kind: Kind) {
    Grows(c.log, d.log, s, kind) && d.next >= c.next && Foreign(d, s)
  }

  lemma SparesOn(c: Ctx, d: Ctx, e: Ctx, s: Option<Handle>)
    requires Spares(c, d, s, Plumbing) && Spares(d, e, s, Plumbing)
    ensures Spares(c, e, s, Plumbing)
  {
    hide Grows, Foreign;
    GrowsOn(c.log, d.log, e.log, s);
  }

  /** One more call, and a handle given out for it or not. */
  lemma OneMore(c: Ctx, op: Op, next: Handle, s: Option<Handle>)
    requires Foreign(c, s) && Untouched(op, s) && Admits(Plumbing, op) && next >= c.next
    ensures Spares(c, Log(c, op).(next := next), s, Plumbing)
  {
    hide Foreign, Grows;
    LogGrows(c, op, s);
    ForeignStays(c, Log(c, op).(next := next), s);
  }

  lemma RefuseGrows(c: Ctx, src: Option<Handle>, dst: Option<Handle>, s: Option<Handle>)
    requires Foreign(c, s) && Other(src, s) && Other(dst, s)
    ensures Spares(c, Refuse(c, src, dst), s, Plumbing)
  {
    hide DropIfSome, Grows, Foreign;
    DropGrows(c, dst, s);
    DropGrows(DropIfSome(c, dst), src, s);
    GrowsOn(c.log, DropIfSome(c, dst).log, Refuse(c, src, dst).log, s);
    RefuseOnlyLogs(c, src, dst);
    ForeignStays(c, Refuse(c, src, dst), s);
  }

  /** The pair of a session without a pool is given back at once. */
  lemma RefusedStoreGrows(c: Ctx, src: Handle, dst: Option<Handle>, pairNew: bool, reallocated: bool, s: Option<Handle>)
    requires Foreign(c, s) && Some(src) != s && Other(dst, s) && c.pool.NoPool?
    ensures Spares(c, Store(c, src, dst, pairNew, reallocated), s, Plumbing)
  {
    hide Spares, Foreign, Full, Refuse, AddPair, Store;
    StoreIs(c, src, dst, pairNew, reallocated);
    if pairNew {
      var c1 := Log(c, PairNew(c.next)).(next := c.next + 1);
      var c2 := Log(c1, PairFree(c.next));
      FreshIsOther(c, s);
      OneMore(c, PairNew(c.next), c.next + 1, s);
      SparedForeign(c, c1, s);
      OneMore(c1, PairFree(c.next), c1.next, s);
      SparedForeign(c1, c2, s);
      SparesOn(c, c1, c2, s);
      RefuseGrows(c2, Some(src), dst, s);
      SparesOn(c, c2, Refuse(c2, Some(src), dst), s);
    } else {
      RefuseGrows(c, Some(src), dst, s);
    }
  }

  lemma StoreGrows(c: Ctx, src: Handle, dst: Option<Handle>, pairNew: bool, reallocated: bool, s: Option<Handle>)
    requires Foreign(c, s) && Some(src) != s && Other(dst, s)
    ensures Spares(c, Store(c, src, dst, pairNew, reallocated), s, Plumbing)
  {
    hide Spares, Foreign, Full, Refuse, AddPair, Store;
    StoreIs(c, src, dst, pairNew, reallocated);
    if c.pool.NoPool? {
      RefusedStoreGrows(c, src, dst, pairNew, reallocated, s);
    } else if !pairNew {
      OneMore(c, Undefined, c.next, s);
    } else {
      var c1, p := Log(c, PairNew(c.next)).(next := c.next + 1), Pair(c.next, Some(src), dst, false);
      FreshIsOther(c, s);
      OneMore(c, PairNew(c.next), c.next + 1, s);
      SparedForeign(c, c1, s);
      OneMore(c1, Undefined, c1.next, s);
      SparesOn(c, c1, Log(c1, Undefined), s);
      AddSpares(c1, p, s);
      SparesOn(c, c1, AddPair(c1, p), s);
    }
  }

  lemma StoreIs(c: Ctx, src: Handle, dst: Option<Handle>, pairNew: bool, reallocated: bool)
    ensures var c1 := if pairNew then Log(c, PairNew(c.next)).(next := c.next + 1) else c;
            Store(c, src, dst, pairNew, reallocated)
            == if c.pool.NoPool? then Refuse(if pairNew then Log(c1, PairFree(c.next)) else c1, Some(src), dst)
               else if (Full(c) && !reallocated) || !pairNew then Log(c1, Undefined)
               else AddPair(c1, Pair(c.next, Some(src), dst, false))
  {
    hide Refuse, Full, AddPair;
  }

  lemma FreshIsOther(c: Ctx, s: Option<Handle>)
    requires Foreign(c, s)
    ensures forall h: Handle :: h >= c.next ==> Some(h) != s
  {
  }

  lemma Stays(c: Ctx, s: Option<Handle>)
    requires Foreign(c, s)
    ensures Spares(c, c, s, Plumbing)
  {
  }

  lemma SparedForeign(c: Ctx, d: Ctx, s: Option<Handle>)
    requires Spares(c, d, s, Plumbing)
    ensures Foreign(d, s)
  {
  }

  lemma AddSpares(c: Ctx, p: Pair, s: Option<Handle>)
    requires Foreign(c, s) && c.pool.ForwardPool? && Clear(p, s)
    ensures Spares(c, AddPair(c, p), s, Plumbing)
  {
    hide Clear, Grows;
    Unchanged(c.log, s);
  }

  lemma Unchanged(x: seq<Op>, s: Option<Handle>)
    ensures Grows(x, x, s, Plumbing)
  {
  }

  lemma DirectTcpipSpares(c: Ctx, dstNew: bool, openOk: bool, accepted: bool, pairNew: bool, reallocated: bool,
                          s: Option<Handle>)
    requires Foreign(c, s)
    ensures Spares(c, DoDirectTcpip(c, dstNew, openOk, accepted, pairNew, reallocated), s, Plumbing)
  {
    hide Spares, Foreign, Refuse, Store, OpenFar;
    Stays(c, s);
    FreshIsOther(c, s);
    if c.mode != Deny {
      var far := OpenFar(c, dstNew, openOk);
      OpenFarSpares(c, dstNew, openOk, s);
      SparedForeign(c, far.c, s);
      if !far.accept || !accepted {
        RefuseGrows(far.c, None, far.dst, s);
        SparesOn(c, far.c, Refuse(far.c, None, far.dst), s);
      } else {
        var src, c1 := far.c.next, OpenChannel(far.c, c.trapSession);
        OneMore(far.c, ChannelNew(src, c.trapSession), src + 1, s);
        SparesOn(c, far.c, c1, s);
        SparedForeign(c, c1, s);
        RefuseGrows(c1, Some(src), far.dst, s);
        SparesOn(c, c1, Refuse(c1, Some(src), far.dst), s);
        StoreGrows(c1, src, far.dst, pairNew, reallocated, s);
        SparesOn(c, c1, Store(c1, src, far.dst, pairNew, reallocated), s);
      }
    }
  }

  /** The far channel, in whatever state, is a handle just given out. */
  lemma OpenFarSpares(c: Ctx, dstNew: bool, openOk: bool, s: Option<Handle>)
    requires Foreign(c, s)
    ensures var far := OpenFar(c, dstNew, openOk);
            Spares(c, far.c, s, Plumbing) && far.c.next >= c.next && (far.dst.Some? ==> far.dst.value >= c.next)
  {
    hide Spares, Foreign;
    Stays(c, s);
    FreshIsOther(c, s);
    if c.haasSession.Some? {
      var c1 := OpenChannel(c, c.haasSession.value);
      OneMore(c, ChannelNew(c.next, c.haasSession.value), c.next + 1, s);
      SparedForeign(c, c1, s);
      OneMore(c1, ChannelFree(c.next), c1.next, s);
      SparesOn(c, c1, Log(c1, ChannelFree(c.next)), s);
    }
  }

  lemma DropChannelSpares(c: Ctx, h: Handle, s: Option<Handle>)
    requires Foreign(c, s) && Some(h) != s
    ensures Spares(c, DropChannel(c, h), s, Plumbing)
  {
    hide Spares, Foreign;
    var c1 := Log(c, ChannelUse(h));
    OneMore(c, ChannelUse(h), c.next, s);
    SparedForeign(c, c1, s);
    OneMore(c1, ChannelFree(h), c1.next, s);
    SparesOn(c, c1, Log(c1, ChannelFree(h)), s);
  }

  lemma OpenSpares(c: Ctx, t: Handle, s: Option<Handle>)
    requires Foreign(c, s)
    ensures Spares(c, OpenChannel(c, t), s, Plumbing) && Foreign(OpenChannel(c, t), s)
  {
    hide Foreign, Grows;
    OneMore(c, ChannelNew(c.next, t), c.next + 1, s);
  }

  lemma BothSpares(c: Ctx, t: Option<Handle>, h: Option<Handle>, s: Option<Handle>)
    requires Foreign(c, s) && Other(t, s) && Other(h, s)
    ensures Spares(c, c.(trapChannel := t, haasChannel := h), s, Plumbing)
  {
    hide AllClear, Grows;
    Unchanged(c.log, s);
    assert Items(c.(trapChannel := t, haasChannel := h)) == Items(c);
  }

  lemma NewChannelSpares(c: Ctx, trapNew: bool, haasNew: bool, openOk: bool, s: Option<Handle>)
    requires Foreign(c, s)
    ensures Spares(c, DoNewChannel(c, trapNew, haasNew, openOk), s, Plumbing)
  {
    hide Spares, Foreign, OpenChannel, DropChannel;
    Stays(c, s);
    FreshIsOther(c, s);
    var c1 := OpenChannel(c, c.trapSession);
    OpenSpares(c, c.trapSession, s);
    DropChannelSpares(c1, c.next, s);
    SparesOn(c, c1, DropChannel(c1, c.next), s);
    if c.haasSession.Some? {
      OpenNext(c, c.trapSession);
      var c2 := OpenChannel(c1, c.haasSession.value);
      OpenSpares(c1, c.haasSession.value, s);
      SparesOn(c, c1, c2, s);
      BothSpares(c2, Some(c.next), Some(c1.next), s);
      SparesOn(c, c2, c2.(trapChannel := Some(c.next), haasChannel := Some(c1.next)), s);
      var c3 := DropChannel(c2, c1.next);
      DropChannelSpares(c2, c1.next, s);
      SparesOn(c, c2, c3, s);
      SparedForeign(c, c3, s);
      DropChannelSpares(c3, c.next, s);
      SparesOn(c, c3, DropChannel(c3, c.next), s);
    }
  }

  lemma OpenNext(c: Ctx, t: Handle)
    ensures OpenChannel(c, t).next == c.next + 1
  {
  }

  lemma AuthSpares(c: Ctx, outcome: AuthOutcome, s: Option<Handle>)
    requires Foreign(c, s)
    ensures Spares(c, DoAuthPassword(c, outcome), s, Plumbing)
  {
    hide Grows, AllClear;
    var d := DoAuthPassword(c, outcome);
    var c1 := OpenSession(c);
    Unchanged(c.log, s);
    LogGrows(c, SessionNew(c.next), s);
    LogGrows(c1, SessionFree(c.next), s);
    GrowsOn(c.log, c1.log, Log(c1, SessionFree(c.next)).log, s);
    assert Items(d) == Items(c);
  }

  lemma WriteSpares(c: Ctx, to: Option<Handle>, via: Option<Handle>, stderr: bool, accepted: seq<Byte>,
                    s: Option<Handle>)
    ensures Grows(c.log, WriteTo(c, via, to, stderr, accepted).log, s, Data)
  {
  }

  lemma DataSpares(c: Ctx, e: Event, s: Option<Handle>)
    requires Foreign(c, s) && Enabled(c, e) && IsData(e)
    ensures Spares(c, Next(c, e), s, Data)
  {
    hide WriteTo, Grows, Foreign;
    DataGrows(c, e, s);
    DataStep(c, e);
    ForeignStays(c, Next(c, e), s);
  }

  lemma DataGrows(c: Ctx, e: Event, s: Option<Handle>)
    requires Enabled(c, e) && IsData(e)
    ensures Grows(c.log, Next(c, e).log, s, Data)
  {
    hide WriteTo;
    var bytes := Accepted(e.data, e.wrote);
    WriteSpares(c, c.haasChannel, c.haasSession, e.stderr, bytes, s);
    WriteSpares(c, c.trapChannel, Some(c.trapSession), e.stderr, bytes, s);
    if e.ForwardData? {
      WriteSpares(c, Items(c)[e.i].destiny, c.haasSession, e.stderr, bytes, s);
      WriteSpares(c, Items(c)[e.i].source, Some(c.trapSession), e.stderr, bytes, s);
    }
  }

  lemma LeavingSpares(c: Ctx, s: Option<Handle>)
    requires Foreign(c, s)
    ensures Spares(c, TearDown(c), s, Plumbing) && Spares(c, LeaveWait(c), s, Plumbing)
    ensures Spares(c, LeaveRelay(c), s, Plumbing)
  {
    hide TearDown, Spares, Foreign;
    TearDownGrows(c, s);
    LeaveWaitSpares(c, s);
    if c.haasSession.Some? {
      var c1 := Log(c, EventRemove(c.haasSession.value));
      OneMore(c, EventRemove(c.haasSession.value), c.next, s);
      SparedForeign(c, c1, s);
      LeaveWaitSpares(c1, s);
      SparesOn(c, c1, LeaveWait(c1), s);
    }
  }

  lemma LeaveWaitSpares(c: Ctx, s: Option<Handle>)
    requires Foreign(c, s)
    ensures Spares(c, LeaveWait(c), s, Plumbing)
  {
    hide TearDown, Spares, Foreign;
    var c1 := Log(c, EventRemove(c.trapSession));
    OneMore(c, EventRemove(c.trapSession), c.next, s);
    SparedForeign(c, c1, s);
    TearDownGrows(c1, s);
    SparesOn(c, c1, TearDown(c1), s);
  }

  /** What a teardown leaves: an empty pool, and the channel fields as they were. */
  predicate Emptied(c: Ctx, d: Ctx) {
    d.phase == Done && d.pool == NoPool && d.trapChannel == c.trapChannel && d.haasChannel == c.haasChannel
  }

  lemma TearDownEmpties(c: Ctx)
    ensures Emptied(c, TearDown(c))
  {
    hide DropPool, CloseSessions;
    DropPoolEmpties(c.(phase := Closing));
    CloseSessionsOnlyLogs(DropPool(c.(phase := Closing)));
  }

  lemma LeavingEmpties(c: Ctx)
    ensures Emptied(c, TearDown(c)) && Emptied(c, LeaveWait(c)) && Emptied(c, LeaveRelay(c))
  {
    hide TearDown;
    TearDownEmpties(c);
    TearDownEmpties(Log(c, EventRemove(c.trapSession)));
    if c.haasSession.Some? {
      TearDownEmpties(Log(Log(c, EventRemove(c.haasSession.value)), EventRemove(c.trapSession)));
    }
  }

  /** A session ends in a teardown, and in no other way. */
  lemma OnlyLeavingIsDone(c: Ctx, e: Event)
    requires HandleInv(c) && Enabled(c, e) && !IsCallback(e) && Next(c, e).phase == Done
    ensures Emptied(c, Next(c, e))
  {
    hide TearDown, LeaveWait, LeaveRelay, ReleaseClosed, DoPollForward, Emptied;
    LeavingEmpties(c);
    ReleaseClosedSweeps(c);
    if e.PollForward? {
      PollForwardStep(c, e.eof);
    }
  }

  lemma UseSpares(c: Ctx, h: Option<Handle>, s: Option<Handle>)
    requires Foreign(c, s)
    ensures Spares(c, UseIfSome(c, h), s, Plumbing) && Foreign(UseIfSome(c, h), s)
  {
    hide Foreign, Grows;
    Unchanged(c.log, s);
    if h.Some? {
      OneMore(c, ChannelUse(h.value), c.next, s);
    }
  }

  lemma ClosedSpares(c: Ctx, i: nat, s: Option<Handle>)
    requires Foreign(c, s) && i < |Items(c)|
    ensures Spares(c, MarkClosed(c, i), s, Plumbing)
  {
    hide Grows;
    Unchanged(c.log, s);
    assert Items(c)[i] in Items(c);
  }

  /** Only phase, sweep and flags differ. */
  lemma AsideSpares(c: Ctx, d: Ctx, s: Option<Handle>)
    requires Foreign(c, s) && d == c.(phase := d.phase, sweeping := d.sweeping, closed := d.closed)
    ensures Spares(c, d, s, Plumbing)
  {
    hide Grows, Foreign;
    Unchanged(c.log, s);
    ForeignStays(c, d, s);
  }

  lemma PollForwardSpares(c: Ctx, eof: bool, s: Option<Handle>)
    requires Foreign(c, s) && Enabled(c, PollForward(eof))
    ensures Spares(c, DoPollForward(c, eof), s, Plumbing)
  {
    hide Spares, Foreign, UseIfSome, MarkClosed;
    var i := c.sweeping.i;
    var end := if c.sweeping.AtSource? then Items(c)[i].source else Items(c)[i].destiny;
    var c1 := UseIfSome(c, end);
    UseSpares(c, end, s);
    UseKeepsItems(c, end);
    ClosedSpares(c1, i, s);
    SparesOn(c, c1, MarkClosed(c1, i), s);
    var c2 := if end.Some? && eof then MarkClosed(c1, i) else c1;
    SparedForeign(c, c2, s);
    AsideSpares(c2, DoPollForward(c, eof), s);
    SparesOn(c, c2, DoPollForward(c, eof), s);
  }

  lemma UseKeepsItems(c: Ctx, h: Option<Handle>)
    ensures Items(UseIfSome(c, h)) == Items(c)
  {
  }

  lemma LoopSpares(c: Ctx, e: Event, s: Option<Handle>)
    requires Enabled(c, e) && Foreign(c, s) && !IsCallback(e)
    ensures Spares(c, Next(c, e), s, Plumbing)
  {
    hide TearDown, LeaveWait, LeaveRelay, ReleaseClosed, DoPollForward, UseIfSome, Spares, Foreign;
    LeavingSpares(c, s);
    Stays(c, s);
    if e.SweepEnds? {
      SweepSpares(c, s);
    } else if e.PollForward? {
      PollForwardSpares(c, e.eof, s);
    } else if e.RelayTop? {
      var c1 := UseIfSome(c, c.trapChannel);
      UseSpares(c, c.trapChannel, s);
      UseSpares(c1, c.haasChannel, s);
      SparesOn(c, c1, Next(c, e), s);
    } else if e.KexDone? {
      AddedSpares(c, c.trapSession, Wait, s);
    } else if e.PollDone? {
      AsideSpares(c, c.(phase := Relay), s);
      if c.haasSession.Some? {
        AddedSpares(c, c.haasSession.value, Relay, s);
      }
    } else {
      AsideSpares(c, Next(c, e), s);
    }
  }

  lemma AddedSpares(c: Ctx, t: Handle, phase: Phase, s: Option<Handle>)
    requires Foreign(c, s)
    ensures Spares(c, Log(c, EventAdd(t)).(phase := phase), s, Plumbing)
  {
    hide Spares, Foreign;
    var c1 := Log(c, EventAdd(t));
    OneMore(c, EventAdd(t), c.next, s);
    SparedForeign(c, c1, s);
    AsideSpares(c1, c1.(phase := phase), s);
    SparesOn(c, c1, c1.(phase := phase), s);
  }

  lemma SweepSpares(c: Ctx, s: Option<Handle>)
    requires Foreign(c, s)
    ensures Spares(c, ReleaseClosed(c).(sweeping := NotPolling), s, Plumbing)
  {
    hide Grows, ReleaseClosed, AllClear;
    ReleaseClosedGrows(c, s);
    ReleaseClosedSweeps(c);
    assert Items(ReleaseClosed(c).(sweeping := NotPolling)) == Items(ReleaseClosed(c));
  }

  lemma OneLogged(x: seq<Op>, op: Op, s: Option<Handle>)
    requires Untouched(op, s) && Admits(Terminal, op)
    ensures Grows(x, x + [op], s, Terminal) && Grows(x, x, s, Terminal)
  {
  }

  lemma TerminalGrows(c: Ctx, ok: bool, s: Option<Handle>)
    ensures Grows(c.log, DoPty(c, ok).log, s, Terminal)
    ensures Grows(c.log, DoShell(c, ok).log, s, Terminal)
    ensures Grows(c.log, DoWindow(c).log, s, Terminal)
  {
    hide Grows;
    var h := if c.haasChannel.Some? then c.haasChannel.value else 0;
    OneLogged(c.log, PtyRequest(h, ok), s);
    OneLogged(c.log, ShellRequest(h, ok), s);
    OneLogged(c.log, WindowChange(h), s);
  }

  lemma TerminalSpares(c: Ctx, ok: bool, s: Option<Handle>)
    requires Foreign(c, s)
    ensures Spares(c, DoPty(c, ok), s, Terminal) && Spares(c, DoShell(c, ok), s, Terminal)
    ensures Spares(c, DoWindow(c), s, Terminal)
  {
    hide Grows, Foreign, DoPty, DoShell, DoWindow;
    TerminalGrows(c, ok, s);
    TerminalOnly(c, ok);
    ForeignStays(c, DoPty(c, ok), s);
    ForeignStays(c, DoShell(c, ok), s);
    ForeignStays(c, DoWindow(c), s);
  }

  lemma CallbackSpares(c: Ctx, e: Event, s: Option<Handle>)
    requires Enabled(c, e) && Foreign(c, s) && IsCallback(e)
    ensures Spares(c, Next(c, e), s, KindOf(e))
  {
    hide DoAuthPassword, DoNewChannel, DoDirectTcpip, DoForwardData, WriteTo, DoPty, DoShell, DoWindow, MarkClosed,
         Spares, Foreign;
    if e.AuthPassword? {
      AuthSpares(c, e.outcome, s);
    } else if e.ForwardClosed? {
      ClosedSpares(c, e.i, s);
    } else if e.NewChannel? {
      NewChannelSpares(c, e.trapNew, e.haasNew, e.openOk, s);
    } else if e.DirectTcpip? {
      DirectTcpipSpares(c, e.dstNew, e.openOk, e.accepted, e.pairNew, e.reallocated, s);
    } else if IsData(e) {
      DataSpares(c, e, s);
    } else if e.MainClosed? {
      AsideSpares(c, Next(c, e), s);
    } else {
      TerminalSpares(c, if e.Window? then true else e.ok, s);
    }
  }

  /**
   What any event does to the log: it goes on from it, ends nothing that the context does not hold and
   did not just get, takes up nothing it does not hold, and writes data or asks for a terminal only when
   it is an event of that kind.
   */
  lemma NextGrows(c: Ctx, e: Event, s: Option<Handle>)
    requires Enabled(c, e) && Foreign(c, s)
    ensures Spares(c, Next(c, e), s, KindOf(e))
  {
    hide Next, Foreign, Grows, Spares;
    if IsCallback(e) {
      CallbackSpares(c, e, s);
    } else {
      LoopSpares(c, e, s);
    }
  }

  // ---------------------------------------------------------------- the terminal flags

  predicate SameFlags(c: Ctx, d: Ctx) { d.havePty == c.havePty && d.haveShell == c.haveShell }

  lemma LeavingFlags(c: Ctx)
    ensures SameFlags(c, TearDown(c)) && SameFlags(c, LeaveWait(c)) && SameFlags(c, LeaveRelay(c))
  {
    hide TearDown;
    TearDownFlags(c);
    TearDownFlags(Log(c, EventRemove(c.trapSession)));
    if c.haasSession.Some? {
      TearDownFlags(Log(Log(c, EventRemove(c.haasSession.value)), EventRemove(c.trapSession)));
    }
  }

  lemma TearDownFlags(c: Ctx)
    ensures SameFlags(c, TearDown(c))
  {
    hide DropPool, CloseSessions;
    DropPoolEmpties(c.(phase := Closing));
    CloseSessionsOnlyLogs(DropPool(c.(phase := Closing)));
  }

  lemma StoreFlags(c: Ctx, src: Handle, dst: Option<Handle>, pairNew: bool, reallocated: bool)
    ensures SameFlags(c, Store(c, src, dst, pairNew, reallocated))
  {
    hide Refuse;
    RefuseOnlyLogs(c, Some(src), dst);
    RefuseOnlyLogs(Log(Log(c, PairNew(c.next)).(next := c.next + 1), PairFree(c.next)), Some(src), dst);
  }

  lemma DirectTcpipFlags(c: Ctx, e: Event)
    requires Enabled(c, e) && e.DirectTcpip?
    ensures SameFlags(c, Next(c, e))
  {
    hide Refuse, OpenFar, Store;
    var far := OpenFar(c, e.dstNew, e.openOk);
    OpenFarStep(c, e.dstNew, e.openOk);
    RefuseOnlyLogs(far.c, None, far.dst);
    var c1 := OpenChannel(far.c, c.trapSession);
    RefuseOnlyLogs(c1, Some(far.c.next), far.dst);
    StoreFlags(c1, far.c.next, far.dst, e.pairNew, e.reallocated);
  }

  lemma LoggedFlags(c: Ctx, d: Ctx)
    ensures d == c.(log := d.log, phase := d.phase, closed := d.closed, sweeping := d.sweeping, pool := d.pool) ==>
            SameFlags(c, d)
  {
  }

  lemma NewChannelFlags(c: Ctx, trapNew: bool, haasNew: bool, openOk: bool)
    ensures SameFlags(c, DoNewChannel(c, trapNew, haasNew, openOk))
  {
  }

  lemma AuthFlags(c: Ctx, outcome: AuthOutcome)
    ensures SameFlags(c, DoAuthPassword(c, outcome))
  {
  }

  lemma MarkClosedFlags(c: Ctx, i: nat)
    requires i < |Items(c)|
    ensures SameFlags(c, MarkClosed(c, i))
  {
  }

  lemma PollForwardFlags(c: Ctx, eof: bool)
    requires Enabled(c, PollForward(eof))
    ensures SameFlags(c, DoPollForward(c, eof))
  {
  }

  lemma UseFlags(c: Ctx, h: Option<Handle>)
    ensures OnlyLogged(c, UseIfSome(c, h)) && SameFlags(c, UseIfSome(c, h))
  {
  }

  lemma CallbackFlags(c: Ctx, e: Event)
    requires Enabled(c, e) && IsCallback(e) && KindOf(e) != Terminal
    ensures SameFlags(c, Next(c, e))
  {
    hide DoNewChannel, DoAuthPassword, DoDirectTcpip, DoForwardData, DoPty, DoShell, DoWindow, WriteTo, MarkClosed,
         SameFlags;
    if e.DirectTcpip? {
      DirectTcpipFlags(c, e);
    } else if e.NewChannel? {
      NewChannelFlags(c, e.trapNew, e.haasNew, e.openOk);
    } else if e.AuthPassword? {
      AuthFlags(c, e.outcome);
    } else if e.ForwardClosed? {
      MarkClosedFlags(c, e.i);
    } else {
      if IsData(e) {
        DataStep(c, e);
      }
      LoggedFlags(c, Next(c, e));
    }
  }

  lemma PollDoneFlags(c: Ctx, leave: bool)
    ensures SameFlags(c, DoPollDone(c, leave))
  {
    hide LeaveWait, LeaveRelay;
    LeavingFlags(c);
  }

  lemma LoopFlags(c: Ctx, e: Event)
    requires Enabled(c, e) && !IsCallback(e)
    ensures SameFlags(c, Next(c, e))
  {
    hide TearDown, DoPollDone, ReleaseClosed, DoPollForward, UseIfSome;
    if e.PollForward? {
      PollForwardFlags(c, e.eof);
    } else if e.RelayTop? {
      UseFlags(c, c.trapChannel);
      UseFlags(UseIfSome(c, c.trapChannel), c.haasChannel);
    } else if e.PollDone? {
      PollDoneFlags(c, e.leave);
    } else if e.SweepEnds? {
      ReleaseClosedSweeps(c);
    } else {
      TearDownFlags(c);
    }
  }

  /** Only pty and shell requests touch the terminal flags. */
  lemma FlagsStay(c: Ctx, e: Event)
    requires Enabled(c, e) && KindOf(e) != Terminal
    ensures SameFlags(c, Next(c, e))
  {
    hide Next, SameFlags;
    if IsCallback(e) {
      CallbackFlags(c, e);
    } else {
      LoopFlags(c, e);
    }
  }
}
