/** The other direction: once a hazard has occurred, no end of the session balances the books. */
module Taint {
  import opened Common
  import opened Ledger
  import opened Session
  import opened Handles
  import opened Release
  import opened Growth

  // ---------------------------------------------------------------- tainted books

  /** The books broke a rule, or a session is live that the context has lost. */
  predicate Tainted(c: Ctx) {
    var b := Replay(c.log);
    !b.ok || exists s :: s in b.sessions && Foreign(c, Some(s))
  }

  /** Broken books stay broken, and a session that is not freed stays live. */
  lemma {:induction false} BooksGrow(x: seq<Op>, y: seq<Op>, s: Option<Handle>, kind: Kind)
    requires Grows(x, y, s, kind) && Replay(y).ok
    ensures Replay(x).ok && (s.Some? && s.value in Replay(x).sessions ==> s.value in Replay(y).sessions)
    decreases |y|
  {
    if |x| < |y| {
      BooksGrow(x, y[..|y| - 1], s, kind);
    } else {
      assert x == y;
    }
  }

  lemma TaintStays(c: Ctx, e: Event)
    requires Tainted(c) && Enabled(c, e)
    ensures Tainted(Next(c, e))
  {
    hide Replay, Next, Enabled, Foreign, Grows;
    var d := Next(c, e);
    NothingForeign(c);
    var s: Option<Handle> := None;
    if Replay(c.log).ok {
      var h :| h in Replay(c.log).sessions && Foreign(c, Some(h));
      s := Some(h);
    }
    NextGrows(c, e, s);
    if Replay(d.log).ok {
      BooksGrow(c.log, d.log, s, KindOf(e));
    }
  }

  /** A live session that the context would not know any more is held in no other role. */
  lemma LostSession(c: Ctx, next: Handle, s: Handle)
    requires InOrder(c) && ChannelsPaired(c) && c.haasSession == Some(s) && next >= c.next
    ensures Foreign(c.(haasSession := Some(next), next := next + 1), Some(s))
  {
    MainIsLive(c);
    forall p | p in Items(c)
      ensures Clear(p, Some(s))
    {
      EndsAreLive(c, p);
    }
    assert Items(c.(haasSession := Some(next), next := next + 1)) == Items(c);
  }

  /** A second successful login loses the first session. */
  lemma SecondLoginTaints(c: Ctx)
    requires InOrder(c) && ChannelsPaired(c) && c.authenticated
    ensures Tainted(DoAuthPassword(c, AuthSucceeds))
    ensures Foreign(DoAuthPassword(c, AuthSucceeds), c.haasSession) && c.haasSession.value in Replay(c.log).sessions
  {
    hide Replay, WellKept, Foreign, Separate;
    OpenSessionBooks(c);
    var d, s := DoAuthPassword(c, AuthSucceeds), c.haasSession.value;
    LostSession(c, c.next, s);
    ForeignStays(c.(haasSession := Some(c.next), next := c.next + 1), d, Some(s));
    assert s in Replay(d.log).sessions;
  }

  /** A failed far open is freed twice: the pointer is used again after the first free. */
  lemma DoubleFreeTaints(c: Ctx, accepted: bool, pairNew: bool, reallocated: bool)
    requires InOrder(c) && c.mode == Allow && c.haasSession.Some?
    ensures Tainted(DoDirectTcpip(c, true, false, accepted, pairNew, reallocated))
  {
    hide Replay, WellKept;
    var c1 := OpenChannel(c, c.haasSession.value);
    var c2 := Log(c1, ChannelFree(c.next));
    OpenChannelBooks(c, c.haasSession.value);
    LogBooks(c1, ChannelFree(c.next));
    LogBooks(c2, ChannelUse(c.next));
    LogBooks(Log(c2, ChannelUse(c.next)), ChannelFree(c.next));
  }

  lemma UndefinedTaints(c: Ctx)
    ensures Tainted(Log(c, Undefined))
  {
    hide Replay;
    LogBooks(c, Undefined);
  }

  lemma HazardTaints(c: Ctx, e: Event)
    requires InOrder(c) && HandleInv(c) && Enabled(c, e) && Hazard(c, e)
    ensures Tainted(Next(c, e))
  {
    hide InOrder, Tainted;
    if e.AuthPassword? {
      SecondLoginTaints(c);
    } else if c.mode == Allow && c.haasSession.Some? && e.dstNew && !e.openOk {
      DoubleFreeTaints(c, e.accepted, e.pairNew, e.reallocated);
    } else {
      var far := OpenFar(c, e.dstNew, e.openOk);
      var c1 := OpenChannel(far.c, c.trapSession);
      UndefinedTaints(if e.pairNew then Log(c1, PairNew(c1.next)).(next := c1.next + 1) else c1);
    }
  }

  lemma {:induction false} HazardTaintsRun(mode: Mode, poolNew: bool, es: seq<Event>)
    requires Legal(Start(mode, poolNew), es) && !HazardFree(Start(mode, poolNew), es)
    ensures Tainted(Run(Start(mode, poolNew), es))
  {
    hide Tainted, InOrder, Balanced;
    var before, e := es[..|es| - 1], es[|es| - 1];
    var c := Run(Start(mode, poolNew), before);
    if HazardFree(Start(mode, poolNew), before) {
      HazardFreeKeepsOrder(mode, poolNew, before);
      HandleInvRun(mode, poolNew, before);
      HazardTaints(c, e);
    } else {
      HazardTaintsRun(mode, poolNew, before);
      TaintStays(c, e);
    }
  }

  /**
   Resource discipline, exactly: a finished session has given back every session, channel and pair
   once, in the right order, with the event loop balanced and no handle used after its end, if and
   only if no hazard occurred - no second successful login, no failed open of a far channel, and no
   allocation failure on the way into an existing pool.
   */
  lemma {:induction false} BalancedIffHazardFree(mode: Mode, poolNew: bool, start: Ctx, es: seq<Event>)
    requires start == Start(mode, poolNew) && Legal(start, es) && Run(start, es).phase == Done
    ensures HazardFree(start, es) <==> Balanced(Run(start, es).log)
  {
    if HazardFree(start, es) {
      HazardFreeKeepsOrder(mode, poolNew, es);
    } else {
      HazardTaintsRun(mode, poolNew, es);
    }
  }

  // ---------------------------------------------------------------- handle by handle

  /** h was given out, and never ended. */
  predicate Unended(log: seq<Op>, h: Handle) {
    (exists i :: 0 <= i < |log| && Born(log[i]) == Some(h)) && forall k :: 0 <= k < |log| ==> Ended(log[k]) != Some(h)
  }

  /** h was given out, and ended at two places. */
  predicate EndedTwice(log: seq<Op>, h: Handle) {
    && (exists i :: 0 <= i < |log| && Born(log[i]) == Some(h))
    && exists j, k :: 0 <= j < k < |log| && Ended(log[j]) == Some(h) && Ended(log[k]) == Some(h)
  }

  /** Some handle is out of reach and not ended, or has been ended twice. */
  ghost predicate Spoiled(c: Ctx) {
    (exists h :: Unended(c.log, h) && Foreign(c, Some(h))) || (exists h :: EndedTwice(c.log, h))
  }

  lemma UnendedOn(x: seq<Op>, y: seq<Op>, h: Handle, kind: Kind)
    requires Unended(x, h) && Grows(x, y, Some(h), kind)
    ensures Unended(y, h)
  {
    var i :| 0 <= i < |x| && Born(x[i]) == Some(h);
    assert y[i] == y[..|x|][i];
    forall k | 0 <= k < |y|
      ensures Ended(y[k]) != Some(h)
    {
      if k < |x| {
        assert y[k] == y[..|x|][k];
      }
    }
  }

  lemma TwiceOn(x: seq<Op>, y: seq<Op>, h: Handle)
    requires EndedTwice(x, h) && x <= y
    ensures EndedTwice(y, h)
  {
    var i :| 0 <= i < |x| && Born(x[i]) == Some(h);
    var j, k :| 0 <= j < k < |x| && Ended(x[j]) == Some(h) && Ended(x[k]) == Some(h);
    assert y[i] == x[i] && y[j] == x[j] && y[k] == x[k];
  }

  lemma GrowsIsPrefix(x: seq<Op>, y: seq<Op>, s: Option<Handle>, kind: Kind)
    requires Grows(x, y, s, kind)
    ensures x <= y
  {
  }

  lemma SpoiltStays(c: Ctx, e: Event)
    requires Spoiled(c) && Enabled(c, e)
    ensures Spoiled(Next(c, e))
  {
    hide Next, Enabled, Foreign, Grows, Unended, EndedTwice;
    if h :| Unended(c.log, h) && Foreign(c, Some(h)) {
      NextGrows(c, e, Some(h));
      UnendedOn(c.log, Next(c, e).log, h, KindOf(e));
    } else {
      var h :| EndedTwice(c.log, h);
      NothingForeign(c);
      NextGrows(c, e, None);
      GrowsIsPrefix(c.log, Next(c, e).log, None, KindOf(e));
      TwiceOn(c.log, Next(c, e).log, h);
    }
  }

  lemma SpoiltIsNotOnce(log: seq<Op>, h: Handle)
    requires Unended(log, h) || EndedTwice(log, h)
    ensures exists i :: 0 <= i < |log| && Born(log[i]).Some? && !EndedOnce(log, i)
  {
    var i :| 0 <= i < |log| && Born(log[i]) == Some(h);
    assert !EndedOnce(log, i);
  }

  /** A live handle was given out, and has not been ended. */
  lemma {:induction false} LiveIsUnended(log: seq<Op>, h: Handle)
    requires Replay(log).ok && Live(Replay(log), h)
    ensures Unended(log, h)
  {
    forall k | 0 <= k < |log|
      ensures Ended(log[k]) != Some(h)
    {
      if Ended(log[k]) == Some(h) {
        DeadForGood(log, k);
      }
    }
    LiveIsBorn(log, h);
  }

  lemma {:induction false} LiveIsBorn(log: seq<Op>, h: Handle)
    requires Replay(log).ok && Live(Replay(log), h)
    ensures exists i :: 0 <= i < |log| && Born(log[i]) == Some(h)
  {
    var before := log[..|log| - 1];
    if Live(Replay(before), h) {
      LiveIsBorn(before, h);
      var i :| 0 <= i < |before| && Born(before[i]) == Some(h);
      assert log[i] == before[i];
    } else {
      assert Born(log[|log| - 1]) == Some(h);
    }
  }

  lemma OneMoreUnended(log: seq<Op>, op: Op, h: Handle)
    requires Unended(log, h) && Ended(op) != Some(h)
    ensures Unended(log + [op], h)
  {
    var i :| 0 <= i < |log| && Born(log[i]) == Some(h);
    assert (log + [op])[i] == log[i];
  }

  /** A handle just given out was never ended before. */
  lemma NewIsUnended(c: Ctx, op: Op, h: Handle)
    requires Replay(c.log).ok && Replay(c.log).issued <= h && Born(op) == Some(h) && Ended(op).None?
    ensures Unended(c.log + [op], h)
  {
    var log := c.log + [op];
    assert Born(log[|c.log|]) == Some(h);
    forall k | 0 <= k < |log|
      ensures Ended(log[k]) != Some(h)
    {
      if k < |c.log| && Ended(c.log[k]) == Some(h) {
        DeadForGood(c.log, k);
      }
    }
  }

  lemma LoginSpoils(c: Ctx)
    requires InOrder(c) && ChannelsPaired(c) && c.authenticated
    ensures Spoiled(DoAuthPassword(c, AuthSucceeds))
  {
    hide Unended, Foreign, Replay, WellKept, Separate;
    SecondLoginTaints(c);
    LiveIsUnended(c.log, c.haasSession.value);
    OneMoreUnended(c.log, SessionNew(c.next), c.haasSession.value);
  }

  lemma FailedOpenSpoils(c: Ctx, accepted: bool, pairNew: bool, reallocated: bool)
    requires c.mode == Allow && c.haasSession.Some?
    ensures Spoiled(DoDirectTcpip(c, true, false, accepted, pairNew, reallocated))
  {
    var d, n, h := DoDirectTcpip(c, true, false, accepted, pairNew, reallocated), |c.log|, c.next;
    assert d.log == c.log + [ChannelNew(h, c.haasSession.value), ChannelFree(h), ChannelUse(h), ChannelFree(h)];
    assert Born(d.log[n]) == Some(h) && Ended(d.log[n + 1]) == Some(h) && Ended(d.log[n + 3]) == Some(h);
    assert EndedTwice(d.log, h);
  }

  /** What was just given out is held nowhere, unless it was put there. */
  lemma NewIsForeign(c: Ctx, d: Ctx, h: Handle)
    requires InOrder(c) && ChannelsPaired(c) && d == c.(log := d.log, next := d.next) && c.next <= h < d.next
    ensures Foreign(d, Some(h))
  {
    hide Replay;
    MainIsLive(c);
    forall p | p in Items(c)
      ensures Clear(p, Some(h))
    {
      EndsAreLive(c, p);
    }
    assert Items(d) == Items(c);
  }

  /** A pool that does not take the pair: the near channel is out of reach, and not ended. */
  lemma UndefinedSpoils(c: Ctx, dstNew: bool, openOk: bool, pairNew: bool, reallocated: bool)
    requires InOrder(c) && ChannelsPaired(c) && c.mode != Deny && c.mode != Fake && c.pool.ForwardPool?
    requires c.mode == Allow ==> c.haasSession.Some? && dstNew && openOk
    requires !pairNew || (Full(c) && !reallocated)
    ensures Spoiled(DoDirectTcpip(c, dstNew, openOk, true, pairNew, reallocated))
  {
    hide Unended, Foreign, InOrder, Store, Full, OpenFar, ChannelsPaired;
    var far := OpenFar(c, dstNew, openOk);
    FarBooks(c, dstNew, openOk);
    FarOpens(c, dstNew, openOk);
    FullAside(c, far.c);
    StoreUnended(far.c, c.trapSession, far.dst, pairNew, reallocated);
    NewIsForeign(c, Store(OpenChannel(far.c, c.trapSession), far.c.next, far.dst, pairNew, reallocated), far.c.next);
  }

  lemma FarOpens(c: Ctx, dstNew: bool, openOk: bool)
    requires !(c.mode == Allow && c.haasSession.Some? && dstNew && !openOk)
    ensures OpenFar(c, dstNew, openOk).accept <==> (c.mode == Allow ==> c.haasSession.Some? && dstNew)
  {
  }

  /** The near channel after a store that has no effect but to be undefined. */
  lemma StoreUnended(c: Ctx, t: Handle, dst: Option<Handle>, pairNew: bool, reallocated: bool)
    requires Replay(c.log).ok && Replay(c.log).issued <= c.next
    requires c.pool.ForwardPool? && (!pairNew || (Full(c) && !reallocated))
    ensures var d := Store(OpenChannel(c, t), c.next, dst, pairNew, reallocated);
            Unended(d.log, c.next) && d == c.(log := d.log, next := d.next) && d.next > c.next
  {
    hide Unended, Replay, Full, Store;
    var c1 := OpenChannel(c, t);
    FullAside(c, c1);
    NewIsUnended(c, ChannelNew(c.next, t), c.next);
    UndefinedLog(c1, c.next, dst, pairNew, reallocated);
    if pairNew {
      OneMoreUnended(c1.log, PairNew(c1.next), c.next);
      OneMoreUnended(c1.log + [PairNew(c1.next)], Undefined, c.next);
    } else {
      OneMoreUnended(c1.log, Undefined, c.next);
    }
  }

  lemma FarBooks(c: Ctx, dstNew: bool, openOk: bool)
    requires InOrder(c) && !(c.mode == Allow && c.haasSession.Some? && dstNew && !openOk)
    ensures var far := OpenFar(c, dstNew, openOk);
            && Replay(far.c.log).ok && Replay(far.c.log).issued <= far.c.next && far.c.next >= c.next
            && far.c == c.(log := far.c.log, next := far.c.next)
  {
    hide Replay, WellKept, Separate, PoolChannels;
    if c.mode == Allow && c.haasSession.Some? && dstNew {
      OpenChannelBooks(c, c.haasSession.value);
    }
  }

  lemma UndefinedLog(c: Ctx, src: Handle, dst: Option<Handle>, pairNew: bool, reallocated: bool)
    requires c.pool.ForwardPool? && (!pairNew || (Full(c) && !reallocated))
    ensures var d := Store(c, src, dst, pairNew, reallocated);
            && d == c.(log := d.log, next := d.next) && d.next >= c.next
            && d.log == if pairNew then c.log + [PairNew(c.next)] + [Undefined] else c.log + [Undefined]
  {
  }

  lemma HazardSpoils(c: Ctx, e: Event)
    requires InOrder(c) && HandleInv(c) && Enabled(c, e) && Hazard(c, e)
    ensures Spoiled(Next(c, e))
  {
    hide InOrder, Spoiled, DoDirectTcpip, DoAuthPassword, Full;
    if e.AuthPassword? {
      LoginSpoils(c);
    } else if c.mode == Allow && c.haasSession.Some? && e.dstNew && !e.openOk {
      FailedOpenSpoils(c, e.accepted, e.pairNew, e.reallocated);
    } else {
      UndefinedSpoils(c, e.dstNew, e.openOk, e.pairNew, e.reallocated);
    }
  }

  lemma {:induction false} HazardSpoilsRun(mode: Mode, poolNew: bool, es: seq<Event>)
    requires Legal(Start(mode, poolNew), es) && !HazardFree(Start(mode, poolNew), es)
    ensures Spoiled(Run(Start(mode, poolNew), es))
  {
    hide Spoiled, InOrder, Balanced, Next, Hazard;
    var before, e := es[..|es| - 1], es[|es| - 1];
    var c := Run(Start(mode, poolNew), before);
    if HazardFree(Start(mode, poolNew), before) {
      HazardFreeKeepsOrder(mode, poolNew, before);
      HandleInvRun(mode, poolNew, before);
      EnabledRuns(c, e);
      HazardSpoils(c, e);
    } else {
      HazardSpoilsRun(mode, poolNew, before);
      SpoiltStays(c, e);
    }
  }

  lemma EnabledRuns(c: Ctx, e: Event)
    requires Enabled(c, e)
    ensures c.phase != Done
  {
  }

  /**
   Exactly-once release over a whole session, handle by handle and exactly: every session, channel and
   pair it brings to life is ended at one place, later, and nowhere else, if and only if there was no
   hazard.
   */
  lemma {:induction false} EverythingReleasedOnce(mode: Mode, poolNew: bool, start: Ctx, es: seq<Event>)
    requires start == Start(mode, poolNew) && Legal(start, es) && Run(start, es).phase == Done
    ensures var log := Run(start, es).log;
            HazardFree(start, es) <==> forall i :: 0 <= i < |log| && Born(log[i]).Some? ==> EndedOnce(log, i)
  {
    hide Run, Legal, Start, HazardFree, Balanced, EndedOnce, Unended, EndedTwice, Foreign;
    var c := Run(start, es);
    if HazardFree(start, es) {
      BalancedIffHazardFree(mode, poolNew, start, es);
      BalancedMeansExactlyOnce(c.log);
    } else {
      HazardSpoilsRun(mode, poolNew, es);
      var h :| Unended(c.log, h) || EndedTwice(c.log, h);
      SpoiltIsNotOnce(c.log, h);
    }
  }

  // ---------------------------------------------------------------- the hazards, each in a whole session

  /** The session that logs in once, meets one more event, and stops. */
  function Session4(e: Event): seq<Event> { [KexDone(true), AuthPassword(AuthSucceeds), e, PollDone(true)] }

  /** Where it stands when that event comes: the client's session is 0, the HaaS session 1. */
  function LoggedIn(): Ctx { DoAuthPassword(Log(Start(Allow, true), EventAdd(0)).(phase := Wait), AuthSucceeds) }

  lemma OneHazard(e: Event)
    requires IsCallback(e) && Enabled(LoggedIn(), e) && Hazard(LoggedIn(), e)
    ensures Legal(Start(Allow, true), Session4(e))
    ensures Run(Start(Allow, true), Session4(e)).phase == Done && !Balanced(Run(Start(Allow, true), Session4(e)).log)
    ensures var d := Next(LoggedIn(), e);
            && Enabled(d, PollDone(true))
            && Run(Start(Allow, true), Session4(e)) == Next(d, PollDone(true))
  {
    hide Next, Balanced, Hazard, HandleInv, Start, LoggedIn;
    var s, c, es, login := Start(Allow, true), LoggedIn(), Session4(e), [KexDone(true), AuthPassword(AuthSucceeds)];
    LoginRuns();
    Extend(s, login, e);
    CallbackStep(c, e);
    Extend(s, login + [e], PollDone(true));
    StopEnds(Next(c, e));
    assert es == login + [e] + [PollDone(true)];
    assert es[..3] == login + [e] && es[..3][..2] == login;
    BalancedIffHazardFree(Allow, true, s, es);
  }

  lemma LoginRuns()
    ensures var es := [KexDone(true), AuthPassword(AuthSucceeds)];
            Legal(Start(Allow, true), es) && Run(Start(Allow, true), es) == LoggedIn()
    ensures HandleInv(LoggedIn()) && LoggedIn().phase == Wait && LoggedIn().sweeping.NotPolling?
  {
    hide HandleInv, Legal, Run, Next, Enabled, LoggedIn;
    var s, login := Start(Allow, true), [KexDone(true), AuthPassword(AuthSucceeds)];
    LoginSteps(s);
    NothingRuns(s);
    Extend(s, [], KexDone(true));
    assert [] + [KexDone(true)] == [KexDone(true)];
    Extend(s, [KexDone(true)], AuthPassword(AuthSucceeds));
    assert [KexDone(true)] + [AuthPassword(AuthSucceeds)] == login;
    HandleInvRun(Allow, true, login);
  }

  lemma NothingRuns(s: Ctx)
    ensures Legal(s, []) && Run(s, []) == s
  {
  }

  lemma LoginSteps(s: Ctx)
    requires s == Start(Allow, true)
    ensures Enabled(s, KexDone(true)) && Enabled(Next(s, KexDone(true)), AuthPassword(AuthSucceeds))
    ensures Next(Next(s, KexDone(true)), AuthPassword(AuthSucceeds)) == LoggedIn()
    ensures LoggedIn().phase == Wait && LoggedIn().sweeping.NotPolling?
  {
    hide TearDown;
  }

  lemma StopEnds(d: Ctx)
    requires Enabled(d, PollDone(true))
    ensures Next(d, PollDone(true)).phase == Done
  {
    hide LeaveWait, LeaveRelay, TearDown;
    LeavingIsDone(d);
  }

  /** Stopping goes on from the log as it is, and frees no session the context does not hold. */
  lemma StopGoesOn(d: Ctx, s: Option<Handle>)
    requires Enabled(d, PollDone(true)) && Foreign(d, s)
    ensures var log := Next(d, PollDone(true)).log;
            d.log <= log && forall k :: |d.log| <= k < |log| ==> Untouched(log[k], s)
  {
    hide Next, Enabled, Foreign;
    NextGrows(d, PollDone(true), s);
  }

  const FAILED_OPEN := DirectTcpip(true, false, true, true, true)

  lemma AfterFailedOpen()
    ensures var d := Next(LoggedIn(), FAILED_OPEN);
            && d.log == [SessionNew(0), EventAdd(0), SessionNew(1), ChannelNew(2, 1), ChannelFree(2), ChannelUse(2),
               ChannelFree(2)]
            && Foreign(d, None)
  {
  }

  lemma AfterSecondLogin()
    ensures var d := Next(LoggedIn(), AuthPassword(AuthSucceeds));
            d.log == [SessionNew(0), EventAdd(0), SessionNew(1), SessionNew(2)] && Foreign(d, Some(1))
  {
  }

  /** src/proxy.c:354-357 and 412-428: a far channel that does not open is freed, and then closed and freed again. */
  lemma FailedOpenIsFreedTwice()
    ensures var es := Session4(FAILED_OPEN);
            && Legal(Start(Allow, true), es) && Run(Start(Allow, true), es).phase == Done
            && var log := Run(Start(Allow, true), es).log;
            && !Balanced(log) && |log| > 6 && log[3] == ChannelNew(2, 1) && log[4] == ChannelFree(2)
            && log[5] == ChannelUse(2) && log[6] == ChannelFree(2)
  {
    hide Next, Enabled, Legal, Run, Balanced, Start, LoggedIn;
    StartWaits();
    OneHazard(FAILED_OPEN);
    AfterFailedOpen();
    StopGoesOn(Next(LoggedIn(), FAILED_OPEN), None);
  }

  /** src/proxy.c:612-616: a second successful login overwrites the first session, which is never freed. */
  lemma SecondLoginLeaks()
    ensures var es := Session4(AuthPassword(AuthSucceeds));
            && Legal(Start(Allow, true), es) && Run(Start(Allow, true), es).phase == Done
            && var log := Run(Start(Allow, true), es).log;
            && !Balanced(log) && SessionNew(1) in log && SessionFree(1) !in log
  {
    hide Next, Enabled, Legal, Run, Balanced, Start, LoggedIn;
    StartWaits();
    OneHazard(AuthPassword(AuthSucceeds));
    AfterSecondLogin();
    var d := Next(LoggedIn(), AuthPassword(AuthSucceeds));
    StopGoesOn(d, Some(1));
    var log := Next(d, PollDone(true)).log;
    assert log[2] == d.log[2];
    assert forall k :: 0 <= k < |d.log| ==> log[k] == d.log[k];
  }

  /** Both requests can come once logged in, and both are hazards. */
  lemma StartWaits()
    ensures var c := LoggedIn();
            && Enabled(c, FAILED_OPEN) && Hazard(c, FAILED_OPEN)
            && Enabled(c, AuthPassword(AuthSucceeds)) && Hazard(c, AuthPassword(AuthSucceeds))
  {
  }

  /** src/fw_pool.c:103: the guard lets a store past the end through when the first realloc fails. */
  lemma FailedReallocStoresAnyway()
    ensures var es := Session4(DirectTcpip(true, true, true, true, false));
            && Legal(Start(Allow, true), es) && Run(Start(Allow, true), es).phase == Done
            && !Balanced(Run(Start(Allow, true), es).log)
  {
    OneHazard(DirectTcpip(true, true, true, true, false));
  }

  /** src/proxy.c:384-389: a pair that malloc did not give is stored and dereferenced. */
  lemma NullPairIsUsed()
    ensures var es := Session4(DirectTcpip(true, true, true, false, true));
            && Legal(Start(Allow, true), es) && Run(Start(Allow, true), es).phase == Done
            && !Balanced(Run(Start(Allow, true), es).log)
  {
    OneHazard(DirectTcpip(true, true, true, false, true));
  }
}
