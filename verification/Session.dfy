/**
 One proxied connection (src/proxy.c) as a transition system.  `Ctx` is tSshContext with the phase
 ProxyProcess is in; an event is one callback, with the outcomes of the libssh calls it makes, or
 one step of the event loops.  Callbacks come in any order and in any phase before teardown.
 Every call on libssh and malloc is appended to the log in the order the code makes it.
 */
module Session {
  import opened Common
  import opened Ledger
  import opened Pool

  const MAX_RETRIES := 3

  datatype Mode = Deny | Allow | Fake | Null | Echo

  /** `Closing` is between the loops and the end, where no event comes any more. */
  datatype Phase = Kex | Wait | Relay | Closing | Done

  /** Where the poll loop of HandleForwards stands; `count` was read before it began. */
  datatype Sweeping = NotPolling | AtSource(i: nat, count: nat) | AtDestiny(i: nat, count: nat)

  datatype ForwardPool = NoPool | ForwardPool(items: seq<Pair>, alloc: nat)

  datatype Ctx = Ctx(
    mode: Mode, phase: Phase, sweeping: Sweeping,
    trapSession: Handle, trapChannel: Option<Handle>,
    haasSession: Option<Handle>, haasChannel: Option<Handle>,
    authenticated: bool, retries: nat, disconnected: bool, closed: bool,
    havePty: bool, haveShell: bool,
    pool: ForwardPool, next: Handle, log: seq<Op>)

  datatype AuthOutcome = NoSession | ConnectFails | AuthFails | AuthSucceeds

  datatype Event =
    // callbacks of the trap session and its channel, and of the HaaS channel
    | AuthPassword(outcome: AuthOutcome)
    | NewChannel(trapNew: bool, haasNew: bool, openOk: bool)
    | Pty(ok: bool)
    | Window(ok: bool)
    | Shell(ok: bool)
    | TrapData(stderr: bool, data: seq<Byte>, wrote: int)
    | HaasData(stderr: bool, data: seq<Byte>, wrote: int)
    | MainClosed
    // forwarding
    | DirectTcpip(dstNew: bool, openOk: bool, accepted: bool, pairNew: bool, reallocated: bool)
    | ForwardData(i: nat, fromSource: bool, stderr: bool, data: seq<Byte>, wrote: int)
    | ForwardClosed(i: nat)
    // ProxyProcess and HandleForwards
    | KexDone(ok: bool)
    | PollDone(leave: bool)     // `leave`: a timeout, an error of the poll, or ShouldStop
    | RelayTop                  // the two polls that open a turn of the relay loop
    | SweepBegins
    | PollForward(eof: bool)
    | SweepEnds

  predicate IsCallback(e: Event) {
    !e.KexDone? && !e.PollDone? && !e.RelayTop? && !e.SweepBegins? && !e.PollForward? && !e.SweepEnds?
  }

  predicate IsData(e: Event) { e.TrapData? || e.HaasData? || e.ForwardData? }

  function Items(c: Ctx): seq<Pair> { if c.pool.NoPool? then [] else c.pool.items }

  predicate Enabled(c: Ctx, e: Event) {
    && c.phase != Done && c.phase != Closing
    && (IsCallback(e) ==> !c.disconnected)
    && match e
       case TrapData(_, data, wrote) => c.trapChannel.Some? && -1 <= wrote <= |data| <= UINT_MAX
       case HaasData(_, data, wrote) => c.haasChannel.Some? && -1 <= wrote <= |data| <= UINT_MAX
       case Pty(_) => c.trapChannel.Some?
       case Window(_) => c.trapChannel.Some?
       case Shell(_) => c.trapChannel.Some?
       case MainClosed => c.trapChannel.Some?
       case ForwardData(i, fromSource, _, data, wrote) =>
         && i < |Items(c)| && (if fromSource then Items(c)[i].source.Some? else Items(c)[i].destiny.Some?)
         && -1 <= wrote <= |data| <= UINT_MAX
       case ForwardClosed(i) => i < |Items(c)|
       case KexDone(_) => c.phase == Kex
       case PollDone(_) => (c.phase == Wait || c.phase == Relay) && c.sweeping.NotPolling?
       case RelayTop => c.phase == Relay && c.sweeping.NotPolling?
       case SweepBegins => c.phase == Relay && c.sweeping.NotPolling? && |Items(c)| > 0
       case PollForward(_) =>
         && c.phase == Relay && !c.sweeping.NotPolling?
         && c.sweeping.i < c.sweeping.count <= |Items(c)|
       case SweepEnds => c.phase == Relay && c.sweeping.AtSource? && c.sweeping.i == c.sweeping.count
       case _ => true
  }

  // ---------------------------------------------------------------- the calls

  function Log(c: Ctx, op: Op): Ctx { c.(log := c.log + [op]) }

  /** A new channel on session s: its handle is c.next. */
  function OpenChannel(c: Ctx, s: Handle): Ctx { Log(c, ChannelNew(c.next, s)).(next := c.next + 1) }

  function OpenSession(c: Ctx): Ctx { Log(c, SessionNew(c.next)).(next := c.next + 1) }

  /** ssh_channel_close (or its like) and ssh_channel_free. */
  function DropChannel(c: Ctx, h: Handle): Ctx { Log(Log(c, ChannelUse(h)), ChannelFree(h)) }

  /** FwEndpointDone, and the channel half of SessionClose. */
  function DropIfSome(c: Ctx, h: Option<Handle>): Ctx { if h.Some? then DropChannel(c, h.value) else c }

  /** FwPairRelease. */
  function ReleasePair(c: Ctx, p: Pair): Ctx {
    Log(DropIfSome(DropIfSome(c, p.source), p.destiny), PairFree(p.id))
  }

  function CloseIfSome(c: Ctx, s: Option<Handle>): Ctx { if s.Some? then Log(c, SessionFree(s.value)) else c }

  /** The prefix of data a write took; a failed write takes nothing. */
  function Accepted(data: seq<Byte>, wrote: int): seq<Byte> {
    if 0 <= wrote <= |data| then data[..wrote] else []
  }

  // ---------------------------------------------------------------- the callbacks

  function AuthFailed(c: Ctx): Ctx {
    c.(retries := c.retries + 1, disconnected := c.disconnected || c.retries + 1 >= MAX_RETRIES)
  }

  /** TrapAuthPassword around HaasConnect. */
  function DoAuthPassword(c: Ctx, outcome: AuthOutcome): Ctx {
    match outcome
    case NoSession => AuthFailed(c)
    case ConnectFails | AuthFails => AuthFailed(Log(OpenSession(c), SessionFree(c.next)))
    case AuthSucceeds => OpenSession(c).(haasSession := Some(c.next), authenticated := true)
  }

  /** TrapNewChannel: the client's session channel and its mate, or neither. */
  function DoNewChannel(c: Ctx, trapNew: bool, haasNew: bool, openOk: bool): Ctx {
    if c.trapChannel.Some? || !trapNew then c
    else
      var t := c.next;
      var c1 := OpenChannel(c, c.trapSession);
      if c.haasSession.None? || !haasNew then DropChannel(c1, t)
      else
        var h := c1.next;
        var c2 := OpenChannel(c1, c.haasSession.value);
        if openOk then c2.(trapChannel := Some(t), haasChannel := Some(h))
        else DropChannel(DropChannel(c2, h), t)
  }

  function DoPty(c: Ctx, ok: bool): Ctx {
    if !c.havePty && c.haasChannel.Some? then Log(c, PtyRequest(c.haasChannel.value, ok)).(havePty := ok) else c
  }

  function DoShell(c: Ctx, ok: bool): Ctx {
    if !c.haveShell && c.haasChannel.Some? then Log(c, ShellRequest(c.haasChannel.value, ok)).(haveShell := ok) else c
  }

  function DoWindow(c: Ctx): Ctx {
    if c.havePty && c.haasChannel.Some? then Log(c, WindowChange(c.haasChannel.value)) else c
  }

  /** A write to channel `to` with session s switched to non-blocking around it. */
  function WriteTo(c: Ctx, s: Option<Handle>, to: Option<Handle>, stderr: bool, accepted: seq<Byte>): Ctx {
    if s.Some? && to.Some? then Log(c, Write(s.value, to.value, stderr, accepted)) else c
  }

  /** ForwardChannelDataCallback. */
  function DoForwardData(c: Ctx, p: Pair, fromSource: bool, stderr: bool, data: seq<Byte>, wrote: int): Ctx {
    match c.mode
    case Allow =>
      if fromSource then WriteTo(c, c.haasSession, p.destiny, stderr, Accepted(data, wrote))
      else WriteTo(c, Some(c.trapSession), p.source, stderr, Accepted(data, wrote))
    case Echo =>
      if fromSource then WriteTo(c, Some(c.trapSession), p.source, stderr, Accepted(data, wrote))
      else WriteTo(c, c.haasSession, p.destiny, stderr, Accepted(data, wrote))
    case _ => c
  }

  function CloseAt(items: seq<Pair>, i: nat): seq<Pair>
    requires i < |items|
  {
    items[i := items[i].(closed := true)]
  }

  function MarkClosed(c: Ctx, i: nat): Ctx
    requires i < |Items(c)|
  {
    c.(pool := c.pool.(items := CloseAt(c.pool.items, i)))
  }

  // TrapMessageCallback for a direct-tcpip request, in the steps of its body.

  /** The channel to the HaaS server, in ALLOW; `dst` still names it when the open failed and it has been freed. */
  datatype Far = Far(c: Ctx, dst: Option<Handle>, accept: bool)

  function OpenFar(c: Ctx, dstNew: bool, openOk: bool): Far {
    if c.mode != Allow then Far(c, None, true)
    else if c.haasSession.None? || !dstNew then Far(c, None, false)
    else
      var c1 := OpenChannel(c, c.haasSession.value);
      if openOk then Far(c1, Some(c.next), true) else Far(Log(c1, ChannelFree(c.next)), Some(c.next), false)
  }

  /** The refusal at the end of the callback. */
  function Refuse(c: Ctx, src: Option<Handle>, dst: Option<Handle>): Ctx {
    DropIfSome(DropIfSome(c, dst), src)
  }

  predicate Full(c: Ctx) { c.pool.ForwardPool? && |c.pool.items| >= c.pool.alloc }

  function AddPair(c: Ctx, p: Pair): Ctx
    requires c.pool.ForwardPool?
  {
    var alloc := if Full(c) then c.pool.alloc + POOL_ALLOC_SIZE else c.pool.alloc;
    c.(pool := ForwardPool(c.pool.items + [p], alloc))
  }

  /** FwPairAlloc and FwPoolAdd; src and dst become the pair's, or are refused when there is no pool. */
  function Store(c: Ctx, src: Handle, dst: Option<Handle>, pairNew: bool, reallocated: bool): Ctx {
    var p := c.next;
    var c1 := if pairNew then Log(c, PairNew(p)).(next := p + 1) else c;
    if c.pool.NoPool? then
      Refuse(if pairNew then Log(c1, PairFree(p)) else c1, Some(src), dst)
    else if Full(c) && !reallocated then Log(c1, Undefined)   // a store past the end of Items
    else if !pairNew then Log(c1, Undefined)                  // a null pair is stored and dereferenced
    else AddPair(c1, Pair(p, Some(src), dst, false))
  }

  function DoDirectTcpip(c: Ctx, dstNew: bool, openOk: bool, accepted: bool, pairNew: bool, reallocated: bool): Ctx {
    if c.mode == Deny then c
    else
      var far := OpenFar(c, dstNew, openOk);
      if !far.accept || !accepted then Refuse(far.c, None, far.dst)
      else
        var src := far.c.next;
        var c1 := OpenChannel(far.c, c.trapSession);
        if c.mode == Fake then Refuse(c1, Some(src), far.dst)
        else Store(c1, src, far.dst, pairNew, reallocated)
  }

  // ---------------------------------------------------------------- the loops and the teardown

  /** FwPoolDone. */
  function DropPool(c: Ctx): Ctx
    decreases |Items(c)|
  {
    if c.pool.NoPool? then c
    else if c.pool.items == [] then c.(pool := NoPool)
    else DropPool(ReleasePair(c.(pool := c.pool.(items := c.pool.items[1..])), c.pool.items[0]))
  }

  /** SessionClose on the HaaS side, then on the trap side. */
  function CloseSessions(c: Ctx): Ctx {
    var c1 := CloseIfSome(DropIfSome(c, c.haasChannel), c.haasSession);
    Log(DropIfSome(c1, c.trapChannel), SessionFree(c.trapSession)).(phase := Done)
  }

  /** Everything after the loops. */
  function TearDown(c: Ctx): Ctx { CloseSessions(DropPool(c.(phase := Closing))) }

  function LeaveWait(c: Ctx): Ctx { TearDown(Log(c, EventRemove(c.trapSession))) }

  function LeaveRelay(c: Ctx): Ctx {
    var c1 := if c.haasSession.Some? then Log(c, EventRemove(c.haasSession.value)) else c;
    LeaveWait(c1)
  }

  function DoPollDone(c: Ctx, leave: bool): Ctx {
    if c.phase == Relay then
      if leave || c.closed then LeaveRelay(c) else c
    else if leave || c.closed then LeaveWait(c)
    else if c.trapChannel.Some? && c.authenticated then
      var c1 := if c.haasSession.Some? then Log(c, EventAdd(c.haasSession.value)) else c;
      c1.(phase := Relay)
    else c
  }

  function UseIfSome(c: Ctx, h: Option<Handle>): Ctx { if h.Some? then Log(c, ChannelUse(h.value)) else c }

  /** One ssh_channel_poll of the poll loop in HandleForwards. */
  function DoPollForward(c: Ctx, eof: bool): Ctx
    requires !c.sweeping.NotPolling? && c.sweeping.i < |Items(c)|
  {
    var i := c.sweeping.i;
    var p := Items(c)[i];
    var end := if c.sweeping.AtSource? then p.source else p.destiny;
    var c1 := UseIfSome(c, end);
    var c2 := if end.Some? && eof then MarkClosed(c1, i) else c1;
    c2.(sweeping := if c.sweeping.AtSource? then AtDestiny(i, c.sweeping.count) else AtSource(i + 1, c.sweeping.count))
  }

  /** The release loop of HandleForwards. */
  function ReleaseClosed(c: Ctx): Ctx
    decreases |Items(c)|
  {
    var f := FindClosed(Items(c));
    if f.None? then c
    else ReleaseClosed(ReleaseAt(c, f.value))
  }

  /** The pair at i leaves the pool and is released. */
  function ReleaseAt(c: Ctx, i: nat): Ctx
    requires i < |Items(c)|
  {
    ReleasePair(c.(pool := c.pool.(items := SwapRemove(c.pool.items, i))), c.pool.items[i])
  }

  function Next(c: Ctx, e: Event): Ctx
    requires Enabled(c, e)
  {
    match e
    case AuthPassword(outcome) => DoAuthPassword(c, outcome)
    case NewChannel(trapNew, haasNew, openOk) => DoNewChannel(c, trapNew, haasNew, openOk)
    case Pty(ok) => DoPty(c, ok)
    case Window(_) => DoWindow(c)
    case Shell(ok) => DoShell(c, ok)
    case TrapData(stderr, data, wrote) => WriteTo(c, c.haasSession, c.haasChannel, stderr, Accepted(data, wrote))
    case HaasData(stderr, data, wrote) => WriteTo(c, Some(c.trapSession), c.trapChannel, stderr, Accepted(data, wrote))
    case MainClosed => c.(closed := true)
    case DirectTcpip(dstNew, openOk, accepted, pairNew, reallocated) =>
      DoDirectTcpip(c, dstNew, openOk, accepted, pairNew, reallocated)
    case ForwardData(i, fromSource, stderr, data, wrote) =>
      DoForwardData(c, Items(c)[i], fromSource, stderr, data, wrote)
    case ForwardClosed(i) => MarkClosed(c, i)
    case KexDone(ok) => if ok then Log(c, EventAdd(c.trapSession)).(phase := Wait) else TearDown(c)
    case PollDone(leave) => DoPollDone(c, leave)
    case RelayTop => UseIfSome(UseIfSome(c, c.trapChannel), c.haasChannel)
    case SweepBegins => c.(sweeping := AtSource(0, |Items(c)|))
    case PollForward(eof) => DoPollForward(c, eof)
    case SweepEnds => ReleaseClosed(c).(sweeping := NotPolling)
  }

  /** After ssh_new and FwPoolInit; `poolNew` is whether malloc gave a pool. */
  function Start(mode: Mode, poolNew: bool): Ctx {
    Ctx(mode, Kex, NotPolling, 0, None, None, None, false, 0, false, false, false, false,
        if mode != Deny && mode != Fake && poolNew then ForwardPool([], 0) else NoPool, 1, [SessionNew(0)])
  }

  predicate Legal(start: Ctx, es: seq<Event>)
    decreases |es|, 0
  {
    es == [] || (Legal(start, es[..|es| - 1]) && Enabled(Run(start, es[..|es| - 1]), es[|es| - 1]))
  }

  function Run(start: Ctx, es: seq<Event>): Ctx
    requires Legal(start, es)
    decreases |es|, 1
  {
    if es == [] then start else Next(Run(start, es[..|es| - 1]), es[|es| - 1])
  }

  lemma Extend(start: Ctx, es: seq<Event>, e: Event)
    requires Legal(start, es) && Enabled(Run(start, es), e)
    ensures Legal(start, es + [e])
    ensures Run(start, es + [e]) == Next(Run(start, es), e)
  {
    assert (es + [e])[..|es|] == es;
  }
}
