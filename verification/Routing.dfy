/**
 Sessions and channels: on which session every channel in use was opened, and which session a write
 selects.  Handles are numbered in the order they are given out (BornInOrder), so s < h says that s is
 the older of the two.
 */
module SessionRouting {
  import opened Common
  import opened Ledger
  import opened Pool
  import opened Session
  import opened Handles
  import opened Growth
  import Streams

  /** A channel is opened on a session that is there already. */
  predicate Ordered(log: seq<Op>) { forall k :: 0 <= k < |log| && log[k].ChannelNew? ==> log[k].s < log[k].c }

  /** Handles are given out in order, each below `next` once it is there. */
  predicate Numbered(log: seq<Op>, next: Handle) {
    && (forall k :: 0 <= k < |log| && Born(log[k]).Some? ==> Born(log[k]).value < next)
    && (forall j, k :: 0 <= j < k < |log| && Born(log[j]).Some? && Born(log[k]).Some? ==>
          Born(log[j]).value < Born(log[k]).value)
  }

  /** The write selects the session on which its channel was opened. */
  predicate WellSelected(log: seq<Op>, k: nat)
    requires k < |log| && log[k].Write?
  {
    ChannelNew(log[k].c, log[k].s) in log[..k]
  }

  /** A write is well selected exactly if its session is older than its channel, and always if there was one login. */
  predicate Selected(log: seq<Op>, once: bool) {
    forall k :: 0 <= k < |log| && log[k].Write? ==>
      (WellSelected(log, k) <==> log[k].s < log[k].c) && (once ==> log[k].s < log[k].c)
  }

  /** h, if older than the context's next handle, was opened on s if s is the older of the two. */
  predicate OpenedOn(c: Ctx, s: Handle, h: Option<Handle>) {
    h.Some? ==> h.value < c.next && (s < h.value ==> ChannelNew(h.value, s) in c.log)
  }

  predicate TrapSide(c: Ctx, h: Option<Handle>) {
    OpenedOn(c, c.trapSession, h) && (h.Some? ==> c.trapSession < h.value)
  }

  predicate HaasSide(c: Ctx, h: Option<Handle>, once: bool) {
    h.Some? ==>
      && c.haasSession.Some? && OpenedOn(c, c.haasSession.value, h)
      && (once ==> c.haasSession.value < h.value)
  }

  predicate PairPlaced(c: Ctx, p: Pair, once: bool) { TrapSide(c, p.source) && HaasSide(c, p.destiny, once) }

  predicate Placed(c: Ctx, once: bool) {
    && c.trapSession < c.next && (c.haasSession.Some? ==> c.haasSession.value < c.next)
    && TrapSide(c, c.trapChannel) && HaasSide(c, c.haasChannel, once)
    && forall p :: p in Items(c) ==> PairPlaced(c, p, once)
  }

  predicate RouteInv(c: Ctx, once: bool) {
    Placed(c, once) && Ordered(c.log) && Numbered(c.log, c.next) && Selected(c.log, once)
  }

  // ---------------------------------------------------------------- calls that give out and write nothing

  predicate Still(x: seq<Op>, y: seq<Op>) {
    |x| <= |y| && y[..|x|] == x && forall k :: |x| <= k < |y| ==> Born(y[k]).None? && !y[k].Write?
  }

  lemma StillOn(x: seq<Op>, y: seq<Op>, z: seq<Op>)
    requires Still(x, y) && Still(y, z)
    ensures Still(x, z)
  {
    assert z[..|x|] == z[..|y|][..|x|];
  }

  lemma SameLog(x: seq<Op>)
    ensures Still(x, x)
  {
  }

  lemma LogStill(c: Ctx, op: Op)
    requires Born(op).None? && !op.Write?
    ensures Still(c.log, Log(c, op).log)
  {
  }

  lemma DropStill(c: Ctx, h: Option<Handle>)
    ensures Still(c.log, DropIfSome(c, h).log)
  {
  }

  lemma ReleasePairStill(c: Ctx, p: Pair)
    ensures Still(c.log, ReleasePair(c, p).log)
  {
    hide DropIfSome, Still;
    var c1 := DropIfSome(c, p.source);
    var c2 := DropIfSome(c1, p.destiny);
    DropStill(c, p.source);
    DropStill(c1, p.destiny);
    StillOn(c.log, c1.log, c2.log);
    LogStill(c2, PairFree(p.id));
    StillOn(c.log, c2.log, ReleasePair(c, p).log);
  }

  lemma {:induction false} ReleaseClosedStill(c: Ctx)
    ensures Still(c.log, ReleaseClosed(c).log)
    decreases |Items(c)|
  {
    hide Still, ReleasePair;
    var f := FindClosed(Items(c));
    if f.Some? {
      var c1 := c.(pool := c.pool.(items := SwapRemove(c.pool.items, f.value)));
      var c2 := ReleasePair(c1, Items(c)[f.value]);
      ReleasePairOnlyLogs(c1, Items(c)[f.value]);
      ReleasePairStill(c1, Items(c)[f.value]);
      ReleaseClosedStill(c2);
      StillOn(c.log, c2.log, ReleaseClosed(c).log);
    } else {
      SameLog(c.log);
    }
  }

  /** What was opened stays opened, and no new write is to be judged. */
  lemma StillKeeps(x: seq<Op>, y: seq<Op>, n: Handle, m: Handle, once: bool)
    requires Still(x, y) && Ordered(x) && Numbered(x, n) && Selected(x, once) && n <= m
    ensures Ordered(y) && Numbered(y, m) && Selected(y, once)
    ensures forall op :: op in x ==> op in y
  {
    forall k | 0 <= k < |y| && y[k].Write?
      ensures (WellSelected(y, k) <==> y[k].s < y[k].c) && (once ==> y[k].s < y[k].c)
    {
      assert y[k] == x[k] && y[..k] == x[..k];
      assert WellSelected(x, k) <==> x[k].s < x[k].c;
    }
    forall op | op in x
      ensures op in y
    {
      var k :| 0 <= k < |x| && x[k] == op;
      assert y[k] == op;
    }
  }

  /** What is placed stays so while its session does and the log goes on. */
  lemma SidesStay(c: Ctx, d: Ctx, h: Option<Handle>, once: bool)
    requires d.trapSession == c.trapSession && d.haasSession == c.haasSession && d.next >= c.next
    requires forall op :: op in c.log ==> op in d.log
    ensures TrapSide(c, h) ==> TrapSide(d, h)
    ensures HaasSide(c, h, once) ==> HaasSide(d, h, once)
  {
  }

  lemma PlacedStays(c: Ctx, d: Ctx, once: bool)
    requires Placed(c, once) && d.trapSession == c.trapSession && d.haasSession == c.haasSession && d.next >= c.next
    requires d.trapChannel == c.trapChannel && d.haasChannel == c.haasChannel && Streams.PairsFrom(c, d)
    requires forall op :: op in c.log ==> op in d.log
    ensures Placed(d, once)
  {
    hide TrapSide, HaasSide;
    SidesStay(c, d, c.trapChannel, once);
    SidesStay(c, d, c.haasChannel, once);
    forall p | p in Items(d)
      ensures PairPlaced(d, p, once)
    {
      var q :| q in Items(c) && q.source == p.source && q.destiny == p.destiny;
      assert PairPlaced(c, q, once);
      SidesStay(c, d, p.source, once);
      SidesStay(c, d, p.destiny, once);
    }
  }

  lemma StillInv(c: Ctx, d: Ctx, once: bool)
    requires RouteInv(c, once) && Still(c.log, d.log)
    requires d.trapSession == c.trapSession && d.haasSession == c.haasSession && d.next >= c.next
    requires d.trapChannel == c.trapChannel && d.haasChannel == c.haasChannel && Streams.PairsFrom(c, d)
    ensures RouteInv(d, once)
  {
    hide Placed, Still, Ordered, Numbered, Selected, Streams.PairsFrom;
    StillKeeps(c.log, d.log, c.next, d.next, once);
    PlacedStays(c, d, once);
  }

  lemma OneLoggedInv(c: Ctx, op: Op, once: bool)
    requires RouteInv(c, once) && Born(op).None? && !op.Write?
    ensures RouteInv(Log(c, op), once)
  {
    hide RouteInv, Still;
    LogStill(c, op);
    Streams.SameItems(c, Log(c, op));
    StillInv(c, Log(c, op), once);
  }

  lemma LoggedInv(c: Ctx, d: Ctx, once: bool)
    requires RouteInv(c, once) && Still(c.log, d.log) && d.next >= c.next && Items(d) == Items(c) && d.mode == c.mode
    requires d.trapSession == c.trapSession && d.haasSession == c.haasSession
    requires d.trapChannel == c.trapChannel && d.haasChannel == c.haasChannel
    ensures RouteInv(d, once)
  {
    hide RouteInv, Still, Streams.PairsFrom;
    Streams.SameItems(c, d);
    StillInv(c, d, once);
  }

  // ---------------------------------------------------------------- calls that open a channel

  lemma OpenKeeps(c: Ctx, s: Handle, once: bool)
    requires RouteInv(c, once) && s < c.next
    ensures RouteInv(OpenChannel(c, s), once) && ChannelNew(c.next, s) in OpenChannel(c, s).log
  {
    hide RouteInv;
    BirthKeeps(c, ChannelNew(c.next, s), once);
    assert OpenChannel(c, s).log[|c.log|] == ChannelNew(c.next, s);
  }

  /** A call that brings the next handle to life. */
  lemma BirthKeeps(c: Ctx, op: Op, once: bool)
    requires RouteInv(c, once) && Born(op) == Some(c.next) && (op.ChannelNew? ==> op.s < c.next)
    ensures var d := Log(c, op).(next := c.next + 1);
            RouteInv(d, once) && forall o :: o in c.log ==> o in d.log
  {
    hide Placed, Selected;
    var d := Log(c, op).(next := c.next + 1);
    OneMoreSelected(c.log, op, once);
    Streams.SameItems(c, d);
    PlacedStays(c, d, once);
  }

  lemma OneMoreSelected(x: seq<Op>, op: Op, once: bool)
    requires Selected(x, once)
    requires op.Write? ==> (ChannelNew(op.c, op.s) in x <==> op.s < op.c) && (once ==> op.s < op.c)
    ensures Selected(x + [op], once)
    ensures forall o :: o in x ==> o in x + [op]
  {
    var y := x + [op];
    assert y[..|x|] == x;
    forall k | 0 <= k < |y| && y[k].Write?
      ensures (WellSelected(y, k) <==> y[k].s < y[k].c) && (once ==> y[k].s < y[k].c)
    {
      if k < |x| {
        assert y[..k] == x[..k];
        assert WellSelected(x, k) <==> x[k].s < x[k].c;
      }
    }
  }

  lemma DropKeeps(c: Ctx, h: Option<Handle>, once: bool)
    requires RouteInv(c, once)
    ensures RouteInv(DropIfSome(c, h), once)
  {
    hide RouteInv, Still, DropIfSome;
    DropStill(c, h);
    DropOnlyLogs(c, h);
    LoggedInv(c, DropIfSome(c, h), once);
  }

  lemma RefuseKeeps(c: Ctx, src: Option<Handle>, dst: Option<Handle>, once: bool)
    requires RouteInv(c, once)
    ensures RouteInv(Refuse(c, src, dst), once)
  {
    hide RouteInv, DropIfSome;
    DropKeeps(c, dst, once);
    DropKeeps(DropIfSome(c, dst), src, once);
  }

  lemma SessionsOlder(c: Ctx, once: bool)
    requires RouteInv(c, once)
    ensures c.trapSession < c.next && (c.haasSession.Some? ==> c.haasSession.value < c.next)
  {
  }

  /** A channel just opened on the session of its side. */
  lemma JustOpened(c: Ctx, s: Handle, h: Handle, once: bool)
    requires s < h < c.next && ChannelNew(h, s) in c.log
    ensures s == c.trapSession ==> TrapSide(c, Some(h))
    ensures c.haasSession == Some(s) ==> HaasSide(c, Some(h), once)
  {
  }

  lemma NewChannelKeeps(c: Ctx, trapNew: bool, haasNew: bool, openOk: bool, once: bool)
    requires RouteInv(c, once)
    ensures RouteInv(DoNewChannel(c, trapNew, haasNew, openOk), once)
  {
    hide RouteInv, TrapSide, HaasSide;
    SessionsOlder(c, once);
    var t, c1 := c.next, OpenChannel(c, c.trapSession);
    OpenKeeps(c, c.trapSession, once);
    DropKeeps(c1, Some(t), once);
    if c.haasSession.Some? {
      var s, h := c.haasSession.value, c1.next;
      var c2 := OpenChannel(c1, s);
      OpenKeeps(c1, s, once);
      DropKeeps(c2, Some(h), once);
      DropKeeps(DropChannel(c2, h), Some(t), once);
      JustOpened(c2, c.trapSession, t, once);
      JustOpened(c2, s, h, once);
      BothPlaced(c2, t, h, once);
    }
  }

  lemma BothPlaced(c: Ctx, t: Handle, h: Handle, once: bool)
    requires RouteInv(c, once) && TrapSide(c, Some(t)) && HaasSide(c, Some(h), once)
    ensures RouteInv(c.(trapChannel := Some(t), haasChannel := Some(h)), once)
  {
    hide Ordered, Numbered, Selected;
    var d := c.(trapChannel := Some(t), haasChannel := Some(h));
    assert Items(d) == Items(c);
    assert forall p :: p in Items(d) ==> PairPlaced(c, p, once) && PairPlaced(d, p, once);
  }

  lemma StoreKeeps(c: Ctx, src: Handle, dst: Option<Handle>, pairNew: bool, reallocated: bool, once: bool)
    requires RouteInv(c, once) && TrapSide(c, Some(src)) && HaasSide(c, dst, once)
    ensures RouteInv(Store(c, src, dst, pairNew, reallocated), once)
  {
    hide RouteInv, TrapSide, HaasSide, Refuse, Store, Full, AddPair;
    StoreIs(c, src, dst, pairNew, reallocated);
    var c1 := Log(c, PairNew(c.next)).(next := c.next + 1);
    PairMade(c, src, dst, once);
    RefuseKeeps(c, Some(src), dst, once);
    OneLoggedInv(c1, PairFree(c.next), once);
    RefuseKeeps(Log(c1, PairFree(c.next)), Some(src), dst, once);
    OneLoggedInv(c1, Undefined, once);
    OneLoggedInv(c, Undefined, once);
    if c.pool.ForwardPool? {
      AddedPlaced(c1, Pair(c.next, Some(src), dst, false), once);
    }
  }

  lemma PairMade(c: Ctx, src: Handle, dst: Option<Handle>, once: bool)
    requires RouteInv(c, once) && TrapSide(c, Some(src)) && HaasSide(c, dst, once)
    ensures var c1 := Log(c, PairNew(c.next)).(next := c.next + 1);
            RouteInv(c1, once) && PairPlaced(c1, Pair(c.next, Some(src), dst, false), once)
  {
    hide RouteInv, TrapSide, HaasSide;
    var c1 := Log(c, PairNew(c.next)).(next := c.next + 1);
    BirthKeeps(c, PairNew(c.next), once);
    SidesStay(c, c1, Some(src), once);
    SidesStay(c, c1, dst, once);
  }

  lemma AddedPlaced(c: Ctx, p: Pair, once: bool)
    requires RouteInv(c, once) && PairPlaced(c, p, once) && c.pool.ForwardPool?
    ensures RouteInv(AddPair(c, p), once)
  {
    hide Ordered, Numbered, Selected, TrapSide, HaasSide;
    var d := AddPair(c, p);
    forall q | q in Items(d)
      ensures PairPlaced(d, q, once)
    {
      assert q in Items(c) || q == p;
      assert PairPlaced(c, q, once);
      SidesStay(c, d, q.source, once);
      SidesStay(c, d, q.destiny, once);
    }
    SidesStay(c, d, c.trapChannel, once);
    SidesStay(c, d, c.haasChannel, once);
  }

  lemma OpenFarKeeps(c: Ctx, dstNew: bool, openOk: bool, once: bool)
    requires RouteInv(c, once)
    ensures var far := OpenFar(c, dstNew, openOk);
            && RouteInv(far.c, once) && far.c.trapSession == c.trapSession && far.c.pool == c.pool
            && (far.accept ==> HaasSide(far.c, far.dst, once))
  {
    hide RouteInv, HaasSide;
    SessionsOlder(c, once);
    NoneSide(c, once);
    if c.haasSession.Some? {
      var s := c.haasSession.value;
      var c1 := OpenChannel(c, s);
      OpenKeeps(c, s, once);
      JustOpened(c1, s, c.next, once);
      OneLoggedInv(c1, ChannelFree(c.next), once);
    }
  }

  lemma NoneSide(c: Ctx, once: bool)
    ensures HaasSide(c, None, once)
  {
  }

  lemma DirectTcpipKeeps(c: Ctx, dstNew: bool, openOk: bool, accepted: bool, pairNew: bool, reallocated: bool,
                         once: bool)
    requires RouteInv(c, once)
    ensures RouteInv(DoDirectTcpip(c, dstNew, openOk, accepted, pairNew, reallocated), once)
  {
    hide RouteInv, TrapSide, HaasSide, Refuse, Store, OpenFar;
    if c.mode != Deny {
      var far := OpenFar(c, dstNew, openOk);
      OpenFarKeeps(c, dstNew, openOk, once);
      RefuseKeeps(far.c, None, far.dst, once);
      if far.accept && accepted {
        var src, c1 := far.c.next, OpenChannel(far.c, c.trapSession);
        SessionsOlder(far.c, once);
        OpenKeeps(far.c, c.trapSession, once);
        JustOpened(c1, c.trapSession, src, once);
        assert forall op :: op in far.c.log ==> op in c1.log;
        SidesStay(far.c, c1, far.dst, once);
        RefuseKeeps(c1, Some(src), far.dst, once);
        StoreKeeps(c1, src, far.dst, pairNew, reallocated, once);
      }
    }
  }

  // ---------------------------------------------------------------- logins and writes

  /** A second successful login. */
  predicate Relogin(c: Ctx, e: Event) { e == AuthPassword(AuthSucceeds) && c.authenticated }

  lemma AuthKeeps(c: Ctx, outcome: AuthOutcome, once: bool)
    requires RouteInv(c, once) && HandleInv(c) && !(once && Relogin(c, AuthPassword(outcome)))
    ensures RouteInv(DoAuthPassword(c, outcome), once)
  {
    hide RouteInv, HandleInv, OpenSession;
    if outcome.AuthSucceeds? {
      LoginKeeps(c, once);
    } else {
      FailureKeeps(c, once);
      if !outcome.NoSession? {
        SessionKeeps(c, once);
        OneLoggedInv(OpenSession(c), SessionFree(c.next), once);
        FailureKeeps(Log(OpenSession(c), SessionFree(c.next)), once);
      }
    }
  }

  lemma FailureKeeps(c: Ctx, once: bool)
    requires RouteInv(c, once)
    ensures RouteInv(AuthFailed(c), once)
  {
    hide RouteInv, Still;
    SameLog(c.log);
    LoggedInv(c, AuthFailed(c), once);
  }

  lemma SessionKeeps(c: Ctx, once: bool)
    requires RouteInv(c, once)
    ensures RouteInv(OpenSession(c), once)
  {
    hide RouteInv;
    BirthKeeps(c, SessionNew(c.next), once);
  }

  /** A login: the channels on the HaaS side, if there are any, are older than the new session. */
  lemma LoginKeeps(c: Ctx, once: bool)
    requires RouteInv(c, once) && HandleInv(c) && !(once && c.authenticated)
    ensures RouteInv(DoAuthPassword(c, AuthSucceeds), once)
  {
    hide Ordered, Numbered, Selected, TrapSide, HandleInv;
    var d := DoAuthPassword(c, AuthSucceeds);
    BirthKeeps(c, SessionNew(c.next), once);
    TrapStays(c, d, c.trapChannel);
    NoHaasSide(c);
    forall p | p in Items(d)
      ensures PairPlaced(d, p, once)
    {
      assert PairPlaced(c, p, once);
      TrapStays(c, d, p.source);
    }
  }

  lemma TrapStays(c: Ctx, d: Ctx, h: Option<Handle>)
    requires d.trapSession == c.trapSession && d.next >= c.next && forall op :: op in c.log ==> op in d.log
    ensures TrapSide(c, h) ==> TrapSide(d, h)
  {
  }

  /** Before a login nothing is on the HaaS side. */
  lemma NoHaasSide(c: Ctx)
    requires HandleInv(c)
    ensures !c.authenticated ==> c.haasChannel.None? && forall p :: p in Items(c) ==> p.destiny.None?
  {
  }

  lemma WriteKeeps(c: Ctx, s: Option<Handle>, to: Option<Handle>, stderr: bool, bytes: seq<Byte>, once: bool)
    requires RouteInv(c, once) && s.Some? && OpenedOn(c, s.value, to) && (once && to.Some? ==> s.value < to.value)
    ensures RouteInv(WriteTo(c, s, to, stderr, bytes), once)
  {
    hide Placed, Selected;
    if to.Some? {
      var d, op := WriteTo(c, s, to, stderr, bytes), Write(s.value, to.value, stderr, bytes);
      NewestWrite(c.log, op);
      OneMoreSelected(c.log, op, once);
      Streams.SameItems(c, d);
      PlacedStays(c, d, once);
    }
  }

  /** A session younger than the channel cannot be the one it was opened on. */
  lemma NewestWrite(log: seq<Op>, op: Op)
    requires Ordered(log) && op.Write?
    ensures ChannelNew(op.c, op.s) in log ==> op.s < op.c
  {
  }

  lemma SidesNow(c: Ctx, p: Pair, once: bool)
    requires RouteInv(c, once)
    ensures TrapSide(c, c.trapChannel) && HaasSide(c, c.haasChannel, once)
    ensures p in Items(c) ==> TrapSide(c, p.source) && HaasSide(c, p.destiny, once)
  {
    assert p in Items(c) ==> PairPlaced(c, p, once);
  }

  lemma TrapWrite(c: Ctx, to: Option<Handle>, stderr: bool, bytes: seq<Byte>, once: bool)
    requires RouteInv(c, once) && TrapSide(c, to)
    ensures RouteInv(WriteTo(c, Some(c.trapSession), to, stderr, bytes), once)
  {
    hide RouteInv;
    WriteKeeps(c, Some(c.trapSession), to, stderr, bytes, once);
  }

  lemma HaasWrite(c: Ctx, to: Option<Handle>, stderr: bool, bytes: seq<Byte>, once: bool)
    requires RouteInv(c, once) && HaasSide(c, to, once)
    ensures RouteInv(WriteTo(c, c.haasSession, to, stderr, bytes), once)
  {
    hide RouteInv;
    if c.haasSession.Some? && to.Some? {
      WriteKeeps(c, c.haasSession, to, stderr, bytes, once);
    }
  }

  lemma DataKeeps(c: Ctx, e: Event, once: bool)
    requires RouteInv(c, once) && Enabled(c, e) && IsData(e)
    ensures RouteInv(Next(c, e), once)
  {
    hide RouteInv, TrapSide, HaasSide, WriteTo;
    var bytes := Accepted(e.data, e.wrote);
    if e.ForwardData? {
      var p := Items(c)[e.i];
      SidesNow(c, p, once);
      TrapWrite(c, p.source, e.stderr, bytes, once);
      HaasWrite(c, p.destiny, e.stderr, bytes, once);
    } else {
      SidesNow(c, Pair(0, None, None, false), once);
      TrapWrite(c, c.trapChannel, e.stderr, bytes, once);
      HaasWrite(c, c.haasChannel, e.stderr, bytes, once);
    }
  }

  // ---------------------------------------------------------------- every event

  lemma TerminalStill(c: Ctx, ok: bool)
    ensures Still(c.log, DoPty(c, ok).log) && Still(c.log, DoShell(c, ok).log) && Still(c.log, DoWindow(c).log)
  {
    hide Still;
    SameLog(c.log);
    if c.haasChannel.Some? {
      var h := c.haasChannel.value;
      LogStill(c, PtyRequest(h, ok));
      LogStill(c, ShellRequest(h, ok));
      LogStill(c, WindowChange(h));
    }
  }

  lemma TerminalKeeps(c: Ctx, ok: bool, once: bool)
    requires RouteInv(c, once)
    ensures RouteInv(DoPty(c, ok), once) && RouteInv(DoShell(c, ok), once) && RouteInv(DoWindow(c), once)
  {
    hide RouteInv, Still, DoPty, DoShell, DoWindow;
    TerminalStill(c, ok);
    TerminalOnly(c, ok);
    LoggedInv(c, DoPty(c, ok), once);
    LoggedInv(c, DoShell(c, ok), once);
    LoggedInv(c, DoWindow(c), once);
  }

  lemma ClosedKeeps(c: Ctx, i: nat, once: bool)
    requires RouteInv(c, once) && i < |Items(c)|
    ensures RouteInv(MarkClosed(c, i), once)
  {
    hide RouteInv, Still, Streams.PairsFrom;
    Streams.CloseAtPairs(c, i);
    SameLog(c.log);
    StillInv(c, MarkClosed(c, i), once);
  }

  lemma CallbackRoutes(c: Ctx, e: Event, once: bool)
    requires RouteInv(c, once) && HandleInv(c) && Enabled(c, e) && IsCallback(e) && !(once && Relogin(c, e))
    ensures RouteInv(Next(c, e), once)
  {
    hide RouteInv, HandleInv, DoAuthPassword, DoNewChannel, DoDirectTcpip, DoForwardData, WriteTo, DoPty, DoShell,
         DoWindow, MarkClosed, Still;
    if e.AuthPassword? {
      AuthKeeps(c, e.outcome, once);
    } else if e.NewChannel? {
      NewChannelKeeps(c, e.trapNew, e.haasNew, e.openOk, once);
    } else if e.DirectTcpip? {
      DirectTcpipKeeps(c, e.dstNew, e.openOk, e.accepted, e.pairNew, e.reallocated, once);
    } else if e.ForwardClosed? {
      ClosedKeeps(c, e.i, once);
    } else if IsData(e) {
      DataKeeps(c, e, once);
    } else if e.MainClosed? {
      SameLog(c.log);
      LoggedInv(c, Next(c, e), once);
    } else {
      TerminalKeeps(c, if e.Window? then true else e.ok, once);
    }
  }

  /** The calls that the loops make around a change of phase or place. */
  lemma MovedKeeps(c: Ctx, phase: Phase, sweeping: Sweeping, once: bool)
    requires RouteInv(c, once)
    ensures RouteInv(c.(phase := phase, sweeping := sweeping), once)
  {
    hide RouteInv, Still;
    SameLog(c.log);
    LoggedInv(c, c.(phase := phase, sweeping := sweeping), once);
  }

  lemma UseKeeps(c: Ctx, h: Option<Handle>, once: bool)
    requires RouteInv(c, once)
    ensures RouteInv(UseIfSome(c, h), once)
  {
    hide RouteInv;
    if h.Some? {
      OneLoggedInv(c, ChannelUse(h.value), once);
    }
  }

  lemma PollForwardKeeps(c: Ctx, eof: bool, once: bool)
    requires RouteInv(c, once) && Enabled(c, PollForward(eof))
    ensures RouteInv(DoPollForward(c, eof), once)
  {
    hide RouteInv, UseIfSome, MarkClosed;
    var i := c.sweeping.i;
    var end := if c.sweeping.AtSource? then Items(c)[i].source else Items(c)[i].destiny;
    var c1 := UseIfSome(c, end);
    UseKeeps(c, end, once);
    UseKeepsItems(c, end);
    ClosedKeeps(c1, i, once);
    var c2 := if end.Some? && eof then MarkClosed(c1, i) else c1;
    MovedKeeps(c2, c2.phase, DoPollForward(c, eof).sweeping, once);
  }

  lemma SweepKeeps(c: Ctx, once: bool)
    requires RouteInv(c, once)
    ensures RouteInv(ReleaseClosed(c).(sweeping := NotPolling), once)
  {
    hide RouteInv, Still, ReleaseClosed, Sweep, Streams.PairsFrom;
    var d := ReleaseClosed(c).(sweeping := NotPolling);
    ReleaseClosedStill(c);
    ReleaseClosedSweeps(c);
    Streams.SweepPairs(Items(c));
    Streams.SubsetPairs(c, d);
    StillInv(c, d, once);
  }

  lemma LoopRoutes(c: Ctx, e: Event, once: bool)
    requires RouteInv(c, once) && Enabled(c, e) && !IsCallback(e) && Next(c, e).phase != Done
    ensures RouteInv(Next(c, e), once)
  {
    hide RouteInv, TearDown, LeaveWait, LeaveRelay, ReleaseClosed, DoPollForward, UseIfSome, Items;
    LeavingIsDone(c);
    if e.PollForward? {
      PollForwardKeeps(c, e.eof, once);
    } else if e.SweepEnds? {
      SweepKeeps(c, once);
    } else if e.RelayTop? {
      UseKeeps(c, c.trapChannel, once);
      UseKeeps(UseIfSome(c, c.trapChannel), c.haasChannel, once);
    } else if e.KexDone? {
      OneLoggedInv(c, EventAdd(c.trapSession), once);
      MovedKeeps(Log(c, EventAdd(c.trapSession)), Wait, c.sweeping, once);
    } else if e.PollDone? {
      MovedKeeps(c, Relay, c.sweeping, once);
      if c.haasSession.Some? {
        OneLoggedInv(c, EventAdd(c.haasSession.value), once);
        MovedKeeps(Log(c, EventAdd(c.haasSession.value)), Relay, c.sweeping, once);
      }
    } else {
      MovedKeeps(c, c.phase, Next(c, e).sweeping, once);
    }
  }

  /** A teardown writes nothing, so the writes before it are all there are. */
  lemma {:induction false} GrowsSelected(x: seq<Op>, y: seq<Op>, s: Option<Handle>, kind: Growth.Kind, once: bool)
    requires Grows(x, y, s, kind) && kind != Data && Selected(x, once)
    ensures Selected(y, once)
  {
    forall k | 0 <= k < |y| && y[k].Write?
      ensures (WellSelected(y, k) <==> y[k].s < y[k].c) && (once ==> y[k].s < y[k].c)
    {
      assert y[k] == x[k] && y[..k] == x[..k];
      assert WellSelected(x, k) <==> x[k].s < x[k].c;
    }
  }

  lemma DoneSelected(c: Ctx, e: Event, once: bool)
    requires Selected(c.log, once) && Enabled(c, e) && KindOf(e) != Data
    ensures Selected(Next(c, e).log, once)
  {
    hide Next, Enabled, Selected, Grows, Foreign, KindOf;
    NothingForeign(c);
    NextGrows(c, e, None);
    GrowsSelected(c.log, Next(c, e).log, None, KindOf(e), once);
  }

  /** There is at most one successful login. */
  predicate LoggedInOnce(start: Ctx, es: seq<Event>)
    requires Legal(start, es)
  {
    es == [] || (LoggedInOnce(start, es[..|es| - 1]) && !Relogin(Run(start, es[..|es| - 1]), es[|es| - 1]))
  }

  lemma StartRoutes(mode: Mode, poolNew: bool, once: bool)
    ensures RouteInv(Start(mode, poolNew), once) && Start(mode, poolNew).phase != Done
  {
    assert Items(Start(mode, poolNew)) == [];
  }

  lemma EnabledNow(c: Ctx, e: Event)
    requires Enabled(c, e)
    ensures c.phase != Done
  {
  }

  lemma {:induction false} RouteInvRun(mode: Mode, poolNew: bool, es: seq<Event>, once: bool)
    requires Legal(Start(mode, poolNew), es) && (once ==> LoggedInOnce(Start(mode, poolNew), es))
    ensures var c := Run(Start(mode, poolNew), es);
            Selected(c.log, once) && (c.phase != Done ==> RouteInv(c, once))
  {
    hide RouteInv, HandleInv, Next, Start, Selected, Relogin;
    StartRoutes(mode, poolNew, once);
    if es == [] {
      RoutesSelected(Start(mode, poolNew), once);
    } else {
      var before, e := es[..|es| - 1], es[|es| - 1];
      RouteInvRun(mode, poolNew, before, once);
      HandleInvRun(mode, poolNew, before);
      var c := Run(Start(mode, poolNew), before);
      EnabledNow(c, e);
      if IsCallback(e) {
        CallbackRoutes(c, e, once);
        RoutesSelected(Next(c, e), once);
      } else {
        DoneSelected(c, e, once);
        if Next(c, e).phase != Done {
          LoopRoutes(c, e, once);
        }
      }
    }
  }

  /** Handles are given out in increasing order, until teardown: the order of their births is that of their numbers. */
  lemma {:induction false} BornInOrder(mode: Mode, poolNew: bool, es: seq<Event>)
    requires Legal(Start(mode, poolNew), es)
    ensures var c := Run(Start(mode, poolNew), es);
            c.phase != Done ==>
              forall j, k :: 0 <= j < |c.log| && 0 <= k < |c.log| && Born(c.log[j]).Some? && Born(c.log[k]).Some? ==>
                (j < k <==> Born(c.log[j]).value < Born(c.log[k]).value)
  {
    hide Run, Legal, Placed, Ordered, Selected;
    RouteInvRun(mode, poolNew, es, false);
  }

  lemma RoutesSelected(c: Ctx, once: bool)
    requires RouteInv(c, once)
    ensures Selected(c.log, once)
  {
  }

  // ---------------------------------------------------------------- theorems over all runs

  /** h, if there is such a channel, was opened on session s. */
  predicate On(c: Ctx, h: Option<Handle>, s: Handle) { h.Some? ==> ChannelNew(h.value, s) in c.log }

  /**
   Whatever happens, second logins included: the client's channel and the source of every pooled pair
   were opened on the client's session; the HaaS channel and the destiny of every pooled pair were
   opened on the HaaS session the context holds exactly if that session is the older of the two, which
   is to say if no login came after the channel.
   */
  lemma {:induction false} ChannelsPlaced(mode: Mode, poolNew: bool, es: seq<Event>)
    requires Legal(Start(mode, poolNew), es)
    ensures var c := Run(Start(mode, poolNew), es);
            c.phase != Done ==>
              && On(c, c.trapChannel, c.trapSession)
              && (c.haasChannel.Some? ==>
                    && c.haasSession.Some?
                    && (On(c, c.haasChannel, c.haasSession.value) <==> c.haasSession.value < c.haasChannel.value))
              && forall p :: p in Items(c) ==>
                   && p.source.Some? && On(c, p.source, c.trapSession)
                   && (p.destiny.Some? ==>
                         && c.haasSession.Some?
                         && (On(c, p.destiny, c.haasSession.value) <==> c.haasSession.value < p.destiny.value))
  {
    hide Run, Legal, HandleInv;
    RouteInvRun(mode, poolNew, es, false);
    ForwardsAlwaysShaped(mode, poolNew, es);
    var c := Run(Start(mode, poolNew), es);
    if c.phase != Done {
      forall p | p in Items(c)
        ensures PairPlaced(c, p, false) && p.source.Some?
      {
        var i :| 0 <= i < |Items(c)| && Items(c)[i] == p;
      }
    }
  }

  /** With at most one successful login every channel in use was opened on the session held for its side. */
  lemma {:induction false} ChannelsOnTheirSession(mode: Mode, poolNew: bool, start: Ctx, es: seq<Event>)
    requires start == Start(mode, poolNew) && Legal(start, es) && LoggedInOnce(start, es)
    ensures var c := Run(start, es);
            c.phase != Done ==>
              && On(c, c.trapChannel, c.trapSession)
              && (c.haasChannel.Some? ==> c.haasSession.Some? && On(c, c.haasChannel, c.haasSession.value))
              && forall p :: p in Items(c) ==>
                   && On(c, p.source, c.trapSession)
                   && (p.destiny.Some? ==> c.haasSession.Some? && On(c, p.destiny, c.haasSession.value))
  {
    hide Run, Legal, LoggedInOnce, Start;
    RouteInvRun(mode, poolNew, es, true);
    var c := Run(start, es);
    assert c.phase != Done ==> forall p :: p in Items(c) ==> PairPlaced(c, p, true);
  }

  /**
   Over every run, whatever fails and however often somebody logs in: a write selects the session on
   which its channel was opened if and only if that session is older than the channel.
   */
  lemma {:induction false} WritesSelect(mode: Mode, poolNew: bool, es: seq<Event>, k: nat)
    requires Legal(Start(mode, poolNew), es)
    requires var log := Run(Start(mode, poolNew), es).log; k < |log| && log[k].Write?
    ensures var log := Run(Start(mode, poolNew), es).log;
            WellSelected(log, k) <==> log[k].s < log[k].c
  {
    hide Run, Legal, RouteInv, WellSelected;
    RouteInvRun(mode, poolNew, es, false);
  }

  /** With at most one successful login every write selects the session on which its channel was opened. */
  lemma {:induction false} WritesSelectTheirSession(mode: Mode, poolNew: bool, start: Ctx, es: seq<Event>)
    requires start == Start(mode, poolNew) && Legal(start, es) && LoggedInOnce(start, es)
    ensures var log := Run(start, es).log; forall k :: 0 <= k < |log| && log[k].Write? ==> WellSelected(log, k)
  {
    hide Run, Legal, RouteInv, WellSelected, LoggedInOnce, Start;
    RouteInvRun(mode, poolNew, es, true);
  }

  // ---------------------------------------------------------------- a write on the wrong session

  /** A client logs in, opens its channel, logs in once more, and then types `bytes`. */
  function TwoLogins(bytes: seq<Byte>): seq<Event> {
    [KexDone(true), AuthPassword(AuthSucceeds), NewChannel(true, true, true), AuthPassword(AuthSucceeds),
     TrapData(false, bytes, |bytes|)]
  }

  /** Where it stands before it types: the second HaaS session is 4, but the HaaS channel 3 was opened on the first. */
  function LoggedInTwice(): Ctx {
    var c := Log(Start(Allow, true), EventAdd(0)).(phase := Wait);
    DoAuthPassword(DoNewChannel(DoAuthPassword(c, AuthSucceeds), true, true, true), AuthSucceeds)
  }

  lemma TwoLoginsRun(bytes: seq<Byte>)
    requires |bytes| <= UINT_MAX
    ensures Legal(Start(Allow, true), TwoLogins(bytes)[..4])
    ensures Run(Start(Allow, true), TwoLogins(bytes)[..4]) == LoggedInTwice()
  {
    hide Legal, Run;
    var s, es := Start(Allow, true), TwoLogins(bytes);
    assert [] + [es[0]] == es[..1] && es[..1] + [es[1]] == es[..2];
    assert es[..2] + [es[2]] == es[..3] && es[..3] + [es[3]] == es[..4];
    NoEvents(s);
    Extend(s, [], es[0]);
    Extend(s, es[..1], es[1]);
    Extend(s, es[..2], es[2]);
    Extend(s, es[..3], es[3]);
  }

  lemma NoEvents(s: Ctx)
    ensures Legal(s, []) && Run(s, []) == s
  {
  }

  lemma TypesOnTheWrong(bytes: seq<Byte>)
    requires |bytes| <= UINT_MAX
    ensures var c, e := LoggedInTwice(), TrapData(false, bytes, |bytes|);
            && Enabled(c, e) && Next(c, e).log == c.log + [Write(4, 3, false, bytes)]
            && |c.log| == 6 && c.log[4] == ChannelNew(3, 1) && ChannelNew(3, 4) !in c.log
  {
    assert Accepted(bytes, |bytes|) == bytes;
  }

  /** After the second login what the client types is written to its old channel with the new session selected. */
  lemma SecondLoginMisdirects(bytes: seq<Byte>)
    requires |bytes| <= UINT_MAX
    ensures var start, es := Start(Allow, true), TwoLogins(bytes);
            && Legal(start, es)
            && var log := Run(start, es).log;
               && |log| == 7 && log[6] == Write(4, 3, false, bytes) && ChannelNew(3, 1) in log && !WellSelected(log, 6)
  {
    hide Legal, Run, Next, Enabled, Start, LoggedInTwice;
    var s, es := Start(Allow, true), TwoLogins(bytes);
    TwoLoginsRun(bytes);
    TypesOnTheWrong(bytes);
    Extend(s, es[..4], es[4]);
    assert es[..4] + [es[4]] == es;
    var c := LoggedInTwice();
    assert (c.log + [Write(4, 3, false, bytes)])[..6] == c.log;
    assert (c.log + [Write(4, 3, false, bytes)])[4] == ChannelNew(3, 1);
  }
}
