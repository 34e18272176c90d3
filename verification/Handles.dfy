/** What holds of the session's handles and flags between any two events, in every order of callbacks. */
module Handles {
  import opened Common
  import opened Ledger
  import opened Pool
  import opened Session

  /** d is c except for what was logged. */
  predicate OnlyLogged(c: Ctx, d: Ctx) { d == c.(log := d.log) }

  lemma DropOnlyLogs(c: Ctx, h: Option<Handle>)
    ensures OnlyLogged(c, DropIfSome(c, h))
  {
  }

  lemma ReleasePairOnlyLogs(c: Ctx, p: Pair)
    ensures OnlyLogged(c, ReleasePair(c, p))
  {
    hide DropIfSome;
    DropOnlyLogs(c, p.source);
    DropOnlyLogs(DropIfSome(c, p.source), p.destiny);
  }

  /** The release loop sweeps the pool and changes nothing else. */
  lemma {:induction false} ReleaseClosedSweeps(c: Ctx)
    ensures var d := ReleaseClosed(c);
            if c.pool.NoPool? then d == c else d == c.(log := d.log, pool := c.pool.(items := Sweep(c.pool.items)))
    decreases |Items(c)|
  {
    var f := FindClosed(Items(c));
    if f.Some? {
      var c1 := c.(pool := c.pool.(items := SwapRemove(c.pool.items, f.value)));
      ReleasePairOnlyLogs(c1, Items(c)[f.value]);
      ReleaseClosedSweeps(ReleasePair(c1, Items(c)[f.value]));
    }
  }

  lemma {:induction false} DropPoolEmpties(c: Ctx)
    ensures var d := DropPool(c); d == c.(log := d.log, pool := NoPool)
    decreases |Items(c)|
  {
    if c.pool.ForwardPool? && c.pool.items != [] {
      var c1 := c.(pool := c.pool.(items := c.pool.items[1..]));
      ReleasePairOnlyLogs(c1, c.pool.items[0]);
      DropPoolEmpties(ReleasePair(c1, c.pool.items[0]));
    }
  }

  /** Whatever path is taken out of the loops, the session ends. */
  lemma LeavingIsDone(c: Ctx)
    ensures TearDown(c).phase == Done && LeaveWait(c).phase == Done && LeaveRelay(c).phase == Done
  {
  }

  // ---------------------------------------------------------------- the handle invariant

  predicate ChannelsPaired(c: Ctx) {
    && c.trapChannel.Some? == c.haasChannel.Some?
    && (c.haasChannel.Some? ==> c.haasSession.Some?)
    && c.authenticated == c.haasSession.Some?
    && (c.phase == Relay ==> c.trapChannel.Some? && c.authenticated)
  }

  predicate RetriesBounded(c: Ctx) {
    c.retries <= MAX_RETRIES && c.disconnected == (c.retries == MAX_RETRIES)
  }

  /** Pooled pairs have a source always, a destiny exactly in ALLOW, and never one channel as both. */
  predicate Shaped(items: seq<Pair>, mode: Mode) {
    forall p :: p in items ==> p.source.Some? && p.destiny.Some? == (mode == Allow) && p.source != p.destiny
  }

  predicate PairsShaped(c: Ctx) {
    && (c.mode == Deny || c.mode == Fake ==> c.pool.NoPool?)
    && (c.pool.ForwardPool? ==> |c.pool.items| <= c.pool.alloc)
    && (c.mode == Allow && Items(c) != [] ==> c.haasSession.Some?)
    && Shaped(Items(c), c.mode)
  }

  predicate SweepInBounds(c: Ctx) {
    match c.sweeping
    case NotPolling => true
    case AtSource(i, count) => c.phase == Relay && i <= count <= |Items(c)| && count > 0
    case AtDestiny(i, count) => c.phase == Relay && i < count <= |Items(c)|
  }

  predicate HandleInv(c: Ctx) {
    ChannelsPaired(c) && RetriesBounded(c) && PairsShaped(c) && SweepInBounds(c)
  }

  /** What never changes before teardown. */
  predicate SameSession(c: Ctx, d: Ctx) {
    d.mode == c.mode && d.trapSession == c.trapSession && d.pool.ForwardPool? == c.pool.ForwardPool?
  }

  lemma NewChannelStep(c: Ctx, trapNew: bool, haasNew: bool, openOk: bool)
    requires ChannelsPaired(c)
    ensures var d := DoNewChannel(c, trapNew, haasNew, openOk);
            && ChannelsPaired(d)
            && d == c.(log := d.log, next := d.next, trapChannel := d.trapChannel, haasChannel := d.haasChannel)
  {
  }

  lemma FailedAuthStep(c: Ctx, d: Ctx)
    requires ChannelsPaired(c) && RetriesBounded(c) && !c.disconnected && d == c.(log := d.log, next := d.next)
    ensures ChannelsPaired(AuthFailed(d)) && RetriesBounded(AuthFailed(d))
  {
  }

  lemma AuthFailedOnly(c: Ctx)
    ensures AuthFailed(c) == c.(retries := AuthFailed(c).retries, disconnected := AuthFailed(c).disconnected)
  {
  }

  lemma AuthStep(c: Ctx, outcome: AuthOutcome)
    requires ChannelsPaired(c) && RetriesBounded(c) && !c.disconnected
    ensures var d := DoAuthPassword(c, outcome);
            && ChannelsPaired(d) && RetriesBounded(d)
            && d == c.(log := d.log, next := d.next, haasSession := d.haasSession, authenticated := d.authenticated,
                       retries := d.retries, disconnected := d.disconnected)
  {
    hide AuthFailed;
    var tried := Log(OpenSession(c), SessionFree(c.next));
    FailedAuthStep(c, c);
    FailedAuthStep(c, tried);
    AuthFailedOnly(c);
    AuthFailedOnly(tried);
  }

  lemma RefuseOnlyLogs(c: Ctx, src: Option<Handle>, dst: Option<Handle>)
    ensures OnlyLogged(c, Refuse(c, src, dst))
  {
    hide DropIfSome;
    DropOnlyLogs(c, dst);
    DropOnlyLogs(DropIfSome(c, dst), src);
  }

  lemma OpenFarStep(c: Ctx, dstNew: bool, openOk: bool)
    ensures var far := OpenFar(c, dstNew, openOk);
            && far.c == c.(log := far.c.log, next := far.c.next)
            && (far.accept ==> far.dst.Some? == (c.mode == Allow))
            && (far.dst.Some? ==> c.haasSession.Some? && far.dst.value < far.c.next)
  {
  }

  predicate OneMorePair(c: Ctx, d: Ctx) {
    && PairsShaped(d)
    && d == c.(log := d.log, next := d.next, pool := d.pool)
    && d.pool.ForwardPool? == c.pool.ForwardPool?
    && (Items(d) == Items(c) || (Items(d) != [] && Items(d) == Items(c) + [Items(d)[|Items(d)| - 1]]))
  }

  /** The shape depends on mode and pool only. */
  lemma ShapeKept(c: Ctx, d: Ctx)
    requires PairsShaped(c) && d.mode == c.mode && d.pool == c.pool && (c.haasSession.Some? ==> d.haasSession.Some?)
    ensures PairsShaped(d) && Items(d) == Items(c)
  {
  }

  lemma StoreStep(c: Ctx, src: Handle, dst: Option<Handle>, pairNew: bool, reallocated: bool)
    requires PairsShaped(c) && c.mode != Deny && c.mode != Fake && dst.Some? == (c.mode == Allow)
    requires dst.Some? ==> c.haasSession.Some? && dst.value != src
    ensures OneMorePair(c, Store(c, src, dst, pairNew, reallocated))
  {
    hide OneMorePair, Store, PairsShaped;
    if c.pool.NoPool? {
      RefusedStoreStep(c, src, dst, pairNew, reallocated);
    } else {
      PooledStoreStep(c, src, dst, pairNew, reallocated);
    }
  }

  lemma PooledStoreStep(c: Ctx, src: Handle, dst: Option<Handle>, pairNew: bool, reallocated: bool)
    requires PairsShaped(c) && c.mode != Deny && c.mode != Fake && dst.Some? == (c.mode == Allow)
    requires dst.Some? ==> c.haasSession.Some? && dst.value != src
    requires c.pool.ForwardPool?
    ensures OneMorePair(c, Store(c, src, dst, pairNew, reallocated))
  {
    hide OneMorePair, Refuse, Shaped;
    var d := Store(c, src, dst, pairNew, reallocated);
    if (Full(c) && !reallocated) || !pairNew {
      NoMorePairs(c, d);
    } else {
      OneMorePairShaped(c, d, Pair(c.next, Some(src), dst, false));
    }
  }

  lemma NoMorePairs(c: Ctx, d: Ctx)
    requires PairsShaped(c) && d == c.(log := d.log, next := d.next)
    ensures OneMorePair(c, d)
  {
    hide PairsShaped;
    ShapeKept(c, d);
  }

  lemma OneMorePairShaped(c: Ctx, d: Ctx, p: Pair)
    requires PairsShaped(c) && d == c.(log := d.log, next := d.next, pool := d.pool)
    requires c.pool.ForwardPool? && d.pool.ForwardPool? && d.pool.items == c.pool.items + [p]
    requires |d.pool.items| <= d.pool.alloc
    requires c.mode != Deny && c.mode != Fake && p.source.Some? && p.destiny.Some? == (c.mode == Allow)
    requires p.source != p.destiny
    requires p.destiny.Some? ==> c.haasSession.Some?
    ensures OneMorePair(c, d)
  {
  }

  lemma RefusedStoreStep(c: Ctx, src: Handle, dst: Option<Handle>, pairNew: bool, reallocated: bool)
    requires PairsShaped(c) && c.pool.NoPool?
    ensures OneMorePair(c, Store(c, src, dst, pairNew, reallocated))
  {
    hide Refuse, PairsShaped;
    var c1 := if pairNew then Log(Log(c, PairNew(c.next)).(next := c.next + 1), PairFree(c.next)) else c;
    RefuseOnlyLogs(c1, Some(src), dst);
    ShapeKept(c, Refuse(c1, Some(src), dst));
  }

  /** x is c after some calls that opened and closed channels. */
  predicate Ahead(c: Ctx, x: Ctx) { x == c.(log := x.log, next := x.next) }

  lemma StepAhead(c: Ctx, x: Ctx, d: Ctx)
    requires PairsShaped(c) && Ahead(c, x) && (d == x || OnlyLogged(x, d) || OneMorePair(x, d))
    ensures PairsShaped(x) && OneMorePair(c, d)
  {
    ShapeKept(c, x);
    if OnlyLogged(x, d) {
      ShapeKept(c, d);
    }
  }

  lemma AuthKeepsSession(c: Ctx, outcome: AuthOutcome)
    ensures c.haasSession.Some? ==> DoAuthPassword(c, outcome).haasSession.Some?
  {
  }

  /** A direct-tcpip request adds at most one pair, at the end of the pool, and touches no other field. */
  lemma DirectTcpipStep(c: Ctx, dstNew: bool, openOk: bool, accepted: bool, pairNew: bool, reallocated: bool)
    requires PairsShaped(c)
    ensures OneMorePair(c, DoDirectTcpip(c, dstNew, openOk, accepted, pairNew, reallocated))
  {
    hide Refuse, OpenFar, Store, OneMorePair, PairsShaped, OnlyLogged;
    var d := DoDirectTcpip(c, dstNew, openOk, accepted, pairNew, reallocated);
    if c.mode == Deny {
      StepAhead(c, c, d);
    } else {
      var far := OpenFar(c, dstNew, openOk);
      OpenFarStep(c, dstNew, openOk);
      if !far.accept || !accepted {
        RefuseOnlyLogs(far.c, None, far.dst);
        StepAhead(c, far.c, d);
      } else {
        var c1 := OpenChannel(far.c, c.trapSession);
        StepAhead(c, c1, c1);
        if c.mode == Fake {
          RefuseOnlyLogs(c1, Some(far.c.next), far.dst);
        } else {
          StoreStep(c1, far.c.next, far.dst, pairNew, reallocated);
        }
        StepAhead(c, c1, d);
      }
    }
  }

  lemma {:induction false} SweepShaped(items: seq<Pair>, mode: Mode)
    requires Shaped(items, mode)
    ensures |Sweep(items)| <= |items| && Shaped(Sweep(items), mode)
    decreases |items|
  {
    var f := FindClosed(items);
    if f.Some? {
      SweepShaped(SwapRemove(items, f.value), mode);
    }
  }

  lemma WriteOnlyLogs(c: Ctx, s: Option<Handle>, to: Option<Handle>, stderr: bool, accepted: seq<Byte>)
    ensures OnlyLogged(c, WriteTo(c, s, to, stderr, accepted))
  {
  }

  lemma DataStep(c: Ctx, e: Event)
    requires Enabled(c, e) && IsData(e)
    ensures OnlyLogged(c, Next(c, e))
  {
    hide WriteTo;
    var bytes := Accepted(e.data, e.wrote);
    WriteOnlyLogs(c, c.haasSession, c.haasChannel, e.stderr, bytes);
    WriteOnlyLogs(c, Some(c.trapSession), c.trapChannel, e.stderr, bytes);
    if e.ForwardData? {
      var p := Items(c)[e.i];
      WriteOnlyLogs(c, c.haasSession, p.destiny, e.stderr, bytes);
      WriteOnlyLogs(c, Some(c.trapSession), p.source, e.stderr, bytes);
    }
  }

  lemma FullAside(c: Ctx, d: Ctx)
    requires d.pool == c.pool
    ensures Full(d) == Full(c)
  {
  }

  /** Terminal requests touch their flag and the log. */
  lemma TerminalOnly(c: Ctx, ok: bool)
    ensures DoPty(c, ok) == c.(log := DoPty(c, ok).log, havePty := DoPty(c, ok).havePty)
    ensures DoShell(c, ok) == c.(log := DoShell(c, ok).log, haveShell := DoShell(c, ok).haveShell)
    ensures OnlyLogged(c, DoWindow(c))
  {
  }

  /** What one event other than teardown keeps. */
  predicate Kept(c: Ctx, d: Ctx) { HandleInv(d) && SameSession(c, d) && d.phase == c.phase && d.sweeping == c.sweeping }

  /** A callback that leaves the handles, the login state and the pool alone. */
  predicate Aside(c: Ctx, d: Ctx) {
    d == c.(log := d.log, closed := d.closed, havePty := d.havePty, haveShell := d.haveShell)
  }

  lemma AsideKept(c: Ctx, d: Ctx)
    requires HandleInv(c) && Aside(c, d)
    ensures Kept(c, d)
  {
    hide Shaped, Items;
    ItemsAside(c, d);
  }

  lemma ItemsAside(c: Ctx, d: Ctx)
    requires d.pool == c.pool
    ensures Items(d) == Items(c)
  {
  }

  lemma AuthKept(c: Ctx, outcome: AuthOutcome)
    requires HandleInv(c) && !c.disconnected
    ensures Kept(c, DoAuthPassword(c, outcome))
  {
    hide DoAuthPassword, ChannelsPaired, RetriesBounded, Shaped;
    AuthStep(c, outcome);
    AuthKeepsSession(c, outcome);
  }

  lemma NewChannelKept(c: Ctx, trapNew: bool, haasNew: bool, openOk: bool)
    requires HandleInv(c)
    ensures Kept(c, DoNewChannel(c, trapNew, haasNew, openOk))
  {
    hide DoNewChannel, ChannelsPaired, Shaped;
    NewChannelStep(c, trapNew, haasNew, openOk);
  }

  lemma DirectTcpipKept(c: Ctx, dstNew: bool, openOk: bool, accepted: bool, pairNew: bool, reallocated: bool)
    requires HandleInv(c)
    ensures Kept(c, DoDirectTcpip(c, dstNew, openOk, accepted, pairNew, reallocated))
  {
    hide DoDirectTcpip, PairsShaped;
    DirectTcpipStep(c, dstNew, openOk, accepted, pairNew, reallocated);
  }

  lemma QuietIsAside(c: Ctx, e: Event)
    requires Enabled(c, e) && (IsData(e) || e.Pty? || e.Window? || e.Shell? || e.MainClosed?)
    ensures Aside(c, Next(c, e))
  {
    hide DoPty, DoWindow, DoShell, WriteTo, DoForwardData;
    if IsData(e) {
      DataStep(c, e);
    } else if e.Pty? || e.Shell? {
      TerminalOnly(c, e.ok);
    } else {
      TerminalOnly(c, false);
    }
  }

  lemma CallbackStep(c: Ctx, e: Event)
    requires HandleInv(c) && Enabled(c, e) && IsCallback(e)
    ensures Kept(c, Next(c, e))
  {
    hide HandleInv, Kept, Aside, DoAuthPassword, DoNewChannel, DoDirectTcpip, DoForwardData, DoPty, DoWindow, DoShell,
         WriteTo, MarkClosed;
    if e.AuthPassword? {
      AuthKept(c, e.outcome);
    } else if e.NewChannel? {
      NewChannelKept(c, e.trapNew, e.haasNew, e.openOk);
    } else if e.DirectTcpip? {
      DirectTcpipKept(c, e.dstNew, e.openOk, e.accepted, e.pairNew, e.reallocated);
    } else if e.ForwardClosed? {
      MarkClosedStep(c, e.i);
    } else {
      QuietIsAside(c, e);
      AsideKept(c, Next(c, e));
    }
  }

  /** A step of the loops that moves the phase or the place of the poll loop. */
  lemma SweepEndsStep(c: Ctx)
    requires HandleInv(c) && c.phase == Relay
    ensures var d := ReleaseClosed(c).(sweeping := NotPolling); HandleInv(d) && SameSession(c, d)
  {
    hide ReleaseClosed, Shaped;
    ReleaseClosedSweeps(c);
    SweepShaped(Items(c), c.mode);
  }

  lemma PollDoneStep(c: Ctx, leave: bool)
    requires HandleInv(c) && c.sweeping.NotPolling?
    ensures var d := DoPollDone(c, leave); d.phase != Done ==> HandleInv(d) && SameSession(c, d)
  {
    hide LeaveRelay, LeaveWait, Shaped;
    LeavingIsDone(c);
  }

  lemma LoopStep(c: Ctx, e: Event)
    requires HandleInv(c) && Enabled(c, e) && !IsCallback(e)
    ensures Next(c, e).phase != Done ==> HandleInv(Next(c, e)) && SameSession(c, Next(c, e))
  {
    hide ReleaseClosed, TearDown, DoPollDone, DoPollForward, PairsShaped;
    if e.PollForward? {
      PollForwardStep(c, e.eof);
    } else if e.SweepEnds? {
      SweepEndsStep(c);
    } else if e.PollDone? {
      PollDoneStep(c, e.leave);
    } else {
      LeavingIsDone(c);
      PoolAsideShaped(c, Next(c, e));
    }
  }

  lemma PoolAsideShaped(c: Ctx, d: Ctx)
    requires PairsShaped(c)
    ensures d.mode == c.mode && d.pool == c.pool && d.haasSession == c.haasSession ==> PairsShaped(d)
  {
    hide Shaped;
  }

  lemma MarkClosedStep(c: Ctx, i: nat)
    requires HandleInv(c) && i < |Items(c)|
    ensures Kept(c, MarkClosed(c, i))
  {
  }

  lemma PollForwardStep(c: Ctx, eof: bool)
    requires HandleInv(c) && Enabled(c, PollForward(eof))
    ensures HandleInv(DoPollForward(c, eof)) && SameSession(c, DoPollForward(c, eof))
    ensures DoPollForward(c, eof).phase == c.phase
  {
  }

  /** Whatever the order of callbacks, the handle invariant holds until teardown. */
  lemma {:induction false} HandleInvRun(mode: Mode, poolNew: bool, es: seq<Event>)
    requires Legal(Start(mode, poolNew), es)
    ensures var c := Run(Start(mode, poolNew), es);
            c.phase != Done ==> HandleInv(c) && SameSession(Start(mode, poolNew), c)
  {
    if es != [] {
      var before, e := es[..|es| - 1], es[|es| - 1];
      HandleInvRun(mode, poolNew, before);
      var c := Run(Start(mode, poolNew), before);
      if IsCallback(e) {
        CallbackStep(c, e);
      } else {
        LoopStep(c, e);
      }
    }
  }

  /**
   Session handles: the two channels exist together and only on a HaaS session, authentication is
   having that session, the relay loop runs on four valid handles, and failed logins stay within
   the limit that cuts the client off.
   */
  lemma {:induction false} HandlesAlwaysValid(mode: Mode, poolNew: bool, es: seq<Event>)
    requires Legal(Start(mode, poolNew), es)
    ensures var c := Run(Start(mode, poolNew), es);
            c.phase != Done ==>
              && (c.trapChannel.Some? <==> c.haasChannel.Some?)
              && (c.trapChannel.Some? ==> c.haasSession.Some?)
              && (c.authenticated <==> c.haasSession.Some?)
              && (c.phase == Relay ==> c.trapChannel.Some? && c.haasChannel.Some? && c.haasSession.Some?)
              && c.retries <= MAX_RETRIES && (c.disconnected <==> c.retries == MAX_RETRIES)
  {
    HandleInvRun(mode, poolNew, es);
  }

  /**
   Ownership of forwards: there is no pool exactly in DENY and FAKE, or when malloc gave none; every
   pooled pair has a source, and has a destiny exactly in ALLOW.
   */
  lemma {:induction false} ForwardsAlwaysShaped(mode: Mode, poolNew: bool, es: seq<Event>)
    requires Legal(Start(mode, poolNew), es)
    ensures var c := Run(Start(mode, poolNew), es);
            c.phase != Done ==>
              && (c.pool.NoPool? <==> mode == Deny || mode == Fake || !poolNew)
              && forall i :: 0 <= i < |Items(c)| ==>
                   && Items(c)[i].source.Some? && (Items(c)[i].destiny.Some? <==> mode == Allow)
                   && Items(c)[i].source != Items(c)[i].destiny
  {
    HandleInvRun(mode, poolNew, es);
    var c := Run(Start(mode, poolNew), es);
    forall i | c.phase != Done && 0 <= i < |Items(c)|
      ensures Items(c)[i].source.Some? && (Items(c)[i].destiny.Some? <==> mode == Allow)
      ensures Items(c)[i].source != Items(c)[i].destiny
    {
      assert Items(c)[i] in Items(c);
    }
  }
}
