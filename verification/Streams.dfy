/**
 Faithful relaying.  libssh buffers what arrives on a channel, hands the data callback everything
 not yet consumed, and drops what the callback says it consumed.  Around the session machine this
 gives a line per channel and stream; over every run the bytes written to the peer followed by the
 bytes still buffered are the bytes received.
 */
module Streams {
  import opened Common
  import opened Ledger
  import opened Pool
  import opened Session
  import opened Handles
  import opened Growth

  /** A channel and one of its streams; `true` is stderr. */
  type Port = (Handle, bool)

  type Buffers = map<Port, seq<Byte>>

  function At(m: Buffers, p: Port): seq<Byte> { if p in m then m[p] else [] }

  /**
   The session with its buffers.  `route` records, when a channel gets its callbacks, where its bytes
   belong: to the peer, back to itself in ECHO, nowhere in NULL.
   */
  datatype Line = Line(c: Ctx, received: Buffers, pending: Buffers, route: map<Handle, Option<Handle>>)

  datatype Feed =
    | Arrive(ch: Handle, stderr: bool, bytes: seq<Byte>)
    | Happens(e: Event)

  /** The channel a data callback is called for. */
  function SourceOf(c: Ctx, e: Event): Handle
    requires Enabled(c, e) && IsData(e)
  {
    match e
    case TrapData(_, _, _) => c.trapChannel.value
    case HaasData(_, _, _) => c.haasChannel.value
    case ForwardData(i, fromSource, _, _, _) =>
      if fromSource then Items(c)[i].source.value else Items(c)[i].destiny.value
  }

  /** What the data callback returns. */
  function ReturnOf(c: Ctx, e: Event): int
    requires Enabled(c, e) && IsData(e)
  {
    match e
    case TrapData(_, _, wrote) => if c.haasChannel.Some? then wrote else -1
    case HaasData(_, _, wrote) => if c.trapChannel.Some? then wrote else -1
    case ForwardData(_, _, _, data, wrote) =>
      if c.mode == Allow || c.mode == Echo then wrote
      else if c.mode == Null then Wrap32(|data|)
      else -1
  }

  /** The prefix libssh drops from the buffer: nothing on an error. */
  function Consumed(data: seq<Byte>, ret: int): nat { if 0 <= ret <= |data| then ret else 0 }

  function PairRoutes(p: Pair, mode: Mode): map<Handle, Option<Handle>> {
    if p.source.None? then map[]
    else match mode
      case Allow => if p.destiny.Some? then map[p.source.value := p.destiny, p.destiny.value := p.source] else map[]
      case Echo => map[p.source.value := p.source]
      case Null => map[p.source.value := None]
      case _ => map[]
  }

  /** The channels that got their callbacks between c and d. */
  function NewRoutes(c: Ctx, d: Ctx): map<Handle, Option<Handle>> {
    if c.trapChannel.None? && d.trapChannel.Some? && d.haasChannel.Some? then
      map[d.trapChannel.value := d.haasChannel, d.haasChannel.value := d.trapChannel]
    else if |Items(d)| > |Items(c)| then PairRoutes(Items(d)[|Items(d)| - 1], d.mode)
    else map[]
  }

  predicate FeedEnabled(l: Line, f: Feed) {
    match f
    case Arrive(ch, _, _) => ch in l.route
    case Happens(e) => Enabled(l.c, e) && (IsData(e) ==> e.data == At(l.pending, (SourceOf(l.c, e), e.stderr)))
  }

  function FeedNext(l: Line, f: Feed): Line
    requires FeedEnabled(l, f)
  {
    match f
    case Arrive(ch, stderr, bytes) =>
      var p := (ch, stderr);
      l.(received := l.received[p := At(l.received, p) + bytes], pending := l.pending[p := At(l.pending, p) + bytes])
    case Happens(e) =>
      var d := Next(l.c, e);
      if IsData(e) then
        var p := (SourceOf(l.c, e), e.stderr);
        l.(c := d, pending := l.pending[p := e.data[Consumed(e.data, ReturnOf(l.c, e))..]])
      else l.(c := d, route := l.route + NewRoutes(l.c, d))
  }

  function FeedStart(mode: Mode, poolNew: bool): Line { Line(Start(mode, poolNew), map[], map[], map[]) }

  predicate FeedLegal(start: Line, fs: seq<Feed>)
    decreases |fs|, 0
  {
    fs == [] || (FeedLegal(start, fs[..|fs| - 1]) && FeedEnabled(FeedRun(start, fs[..|fs| - 1]), fs[|fs| - 1]))
  }

  function FeedRun(start: Line, fs: seq<Feed>): Line
    requires FeedLegal(start, fs)
    decreases |fs|, 1
  {
    if fs == [] then start else FeedNext(FeedRun(start, fs[..|fs| - 1]), fs[|fs| - 1])
  }

  /** Everything a channel's stream was sent, as the log tells. */
  function Sent(log: seq<Op>, to: Handle, stderr: bool): seq<Byte> {
    if log == [] then []
    else
      var op := log[|log| - 1];
      Sent(log[..|log| - 1], to, stderr) + (if op.Write? && op.c == to && op.stderr == stderr then op.accepted else [])
  }

  // ---------------------------------------------------------------- the invariant

  ghost predicate Registered(c: Ctx, route: map<Handle, Option<Handle>>) {
    && (c.trapChannel.Some? && c.haasChannel.Some? ==>
          && c.trapChannel.value in route && route[c.trapChannel.value] == c.haasChannel
          && c.haasChannel.value in route && route[c.haasChannel.value] == c.trapChannel)
    && (forall p :: p in Items(c) ==>
          var r := PairRoutes(p, c.mode); r.Keys <= route.Keys && forall h :: h in r ==> route[h] == r[h])
  }

  ghost predicate Injective(route: map<Handle, Option<Handle>>) {
    forall x, y :: x in route && y in route && x != y && route[x].Some? ==> route[x] != route[y]
  }

  ghost predicate Issued(route: map<Handle, Option<Handle>>, next: Handle) {
    forall x :: x in route ==> x < next && (route[x].Some? ==> route[x].value < next)
  }

  ghost predicate IsTarget(route: map<Handle, Option<Handle>>, to: Handle) {
    exists x :: x in route && route[x] == Some(to)
  }

  predicate IsSuffix(x: seq<Byte>, y: seq<Byte>) { |x| <= |y| && x == y[|y| - |x|..] }

  /** One stream of channel x: what was sent on, then what is buffered, is what came in. */
  predicate PortFaithful(l: Line, x: Handle, err: bool)
    requires x in l.route
  {
    if l.route[x].Some? then
      Sent(l.c.log, l.route[x].value, err) + At(l.pending, (x, err)) == At(l.received, (x, err))
    else
      IsSuffix(At(l.pending, (x, err)), At(l.received, (x, err)))
  }

  ghost predicate Faithful(l: Line) {
    && (forall x, err :: x in l.route ==> PortFaithful(l, x, err))
    && (forall to, err :: !IsTarget(l.route, to) ==> Sent(l.c.log, to, err) == [])
    && (forall p: Port :: p in l.received || p in l.pending ==> p.0 in l.route)
  }

  ghost predicate LineInv(l: Line) {
    && Injective(l.route) && Issued(l.route, l.c.next) && Faithful(l)
    && (l.c.phase != Done ==> HandleInv(l.c) && Registered(l.c, l.route))
  }

  // ---------------------------------------------------------------- the steps

  lemma {:induction false} SentQuiet(x: seq<Op>, y: seq<Op>, s: Option<Handle>, kind: Kind, to: Handle, stderr: bool)
    requires Grows(x, y, s, kind) && kind != Data
    ensures Sent(y, to, stderr) == Sent(x, to, stderr)
    decreases |y|
  {
    if |x| < |y| {
      SentQuiet(x, y[..|y| - 1], s, kind, to, stderr);
    } else {
      assert x == y;
    }
  }

  lemma ArriveKeeps(l: Line, ch: Handle, stderr: bool, bytes: seq<Byte>)
    requires LineInv(l) && ch in l.route
    ensures LineInv(FeedNext(l, Arrive(ch, stderr, bytes)))
  {
    hide Injective, Issued, Registered, HandleInv, PortFaithful, IsTarget;
    var d := FeedNext(l, Arrive(ch, stderr, bytes));
    forall x, err | x in l.route
      ensures PortFaithful(d, x, err)
    {
      assert PortFaithful(l, x, err);
      PortArrives(l, ch, stderr, bytes, x, err);
    }
  }

  /** Bytes that come in wait behind those that wait already. */
  lemma PortArrives(l: Line, ch: Handle, stderr: bool, bytes: seq<Byte>, x: Handle, err: bool)
    requires ch in l.route && x in l.route && PortFaithful(l, x, err)
    ensures PortFaithful(FeedNext(l, Arrive(ch, stderr, bytes)), x, err)
  {
    hide Sent;
    if (x, err) == (ch, stderr) && l.route[x].Some? {
      SumAssociates(Sent(l.c.log, l.route[x].value, err), At(l.pending, (x, err)), bytes);
    }
  }

  lemma SumAssociates(x: seq<Byte>, y: seq<Byte>, z: seq<Byte>)
    ensures x + y + z == x + (y + z)
  {
  }

  predicate IsWrite(op: Op, to: Handle, stderr: bool, bytes: seq<Byte>) {
    op.Write? && op.c == to && op.stderr == stderr && op.accepted == bytes
  }

  /** The step from c to d writes `bytes` to the target, or nothing when there is none. */
  predicate WritesThere(c: Ctx, d: Ctx, target: Option<Handle>, stderr: bool, bytes: seq<Byte>) {
    && OnlyLogged(c, d)
    && if target.Some? then
         |d.log| == |c.log| + 1 && d.log[..|c.log|] == c.log && IsWrite(d.log[|c.log|], target.value, stderr, bytes)
       else d.log == c.log
  }

  lemma WriteToWrites(c: Ctx, via: Option<Handle>, to: Option<Handle>, stderr: bool, bytes: seq<Byte>)
    requires via.Some?
    ensures WritesThere(c, WriteTo(c, via, to, stderr, bytes), to, stderr, bytes)
  {
  }

  /** A data callback writes the accepted prefix to the channel its route names, or writes nothing. */
  lemma DataWrites(c: Ctx, e: Event, route: map<Handle, Option<Handle>>)
    requires HandleInv(c) && Registered(c, route) && Enabled(c, e) && IsData(e)
    ensures var ch := SourceOf(c, e);
            && ch in route && WritesThere(c, Next(c, e), route[ch], e.stderr, Accepted(e.data, e.wrote))
            && (route[ch].Some? ==> ReturnOf(c, e) == e.wrote)
  {
    hide WriteTo, WritesThere;
    var bytes := Accepted(e.data, e.wrote);
    if e.ForwardData? {
      var p := Items(c)[e.i];
      assert p in Items(c);
      assert PairRoutes(p, c.mode).Keys <= route.Keys;
      WriteToWrites(c, Some(c.trapSession), p.source, e.stderr, bytes);
      if c.mode == Allow {
        WriteToWrites(c, c.haasSession, p.destiny, e.stderr, bytes);
      }
      NothingWritten(c, e.stderr, bytes);
    } else {
      WriteToWrites(c, Some(c.trapSession), c.trapChannel, e.stderr, bytes);
      WriteToWrites(c, c.haasSession, c.haasChannel, e.stderr, bytes);
    }
  }

  lemma NothingWritten(c: Ctx, stderr: bool, bytes: seq<Byte>)
    ensures WritesThere(c, c, None, stderr, bytes)
  {
  }

  lemma SentOneMore(x: seq<Op>, y: seq<Op>, to: Handle, stderr: bool)
    requires |y| == |x| + 1 && y[..|x|] == x
    ensures Sent(y, to, stderr)
         == Sent(x, to, stderr)
            + (if y[|x|].Write? && y[|x|].c == to && y[|x|].stderr == stderr then y[|x|].accepted else [])
  {
  }

  /** The part a callback consumed and the part it left make up the buffer. */
  lemma AcceptedIsConsumed(data: seq<Byte>, wrote: int)
    requires -1 <= wrote <= |data|
    ensures Accepted(data, wrote) + data[Consumed(data, wrote)..] == data
  {
  }

  lemma DataKeeps(l: Line, e: Event)
    requires LineInv(l) && FeedEnabled(l, Happens(e)) && IsData(e)
    ensures LineInv(FeedNext(l, Happens(e)))
  {
    hide Next, Sent, IsTarget, Enabled, HandleInv, Registered;
    var d := FeedNext(l, Happens(e));
    var ch := SourceOf(l.c, e);
    EnabledWrote(l.c, e);
    DataWrites(l.c, e, l.route);
    DataKeepsContext(l, e);
    forall x, err | x in l.route
      ensures PortFaithful(d, x, err)
    {
      PortAfterData(l, e, x, err);
    }
    forall to, err | !IsTarget(d.route, to)
      ensures Sent(d.c.log, to, err) == []
    {
      if l.route[ch].Some? {
        SentOneMore(l.c.log, d.c.log, to, err);
        TargetOf(l.route, ch);
      }
    }
  }

  lemma TargetOf(route: map<Handle, Option<Handle>>, x: Handle)
    requires x in route && route[x].Some?
    ensures IsTarget(route, route[x].value)
  {
  }

  lemma DataKeepsContext(l: Line, e: Event)
    requires LineInv(l) && FeedEnabled(l, Happens(e)) && IsData(e)
    ensures var d := Next(l.c, e); HandleInv(d) && Registered(d, l.route) && d.next == l.c.next && d.phase == l.c.phase
  {
    hide Faithful, Injective, Issued;
    CallbackStep(l.c, e);
    DataStep(l.c, e);
    assert Items(Next(l.c, e)) == Items(l.c);
  }

  lemma PortAfterData(l: Line, e: Event, x: Handle, err: bool)
    requires LineInv(l) && FeedEnabled(l, Happens(e)) && IsData(e) && x in l.route
    ensures PortFaithful(FeedNext(l, Happens(e)), x, err)
  {
    hide Next, Enabled, HandleInv, Registered, Issued, WritesThere, PortFaithful, Accepted, Consumed;
    EnabledWrote(l.c, e);
    DataWrites(l.c, e, l.route);
    PortAfterWrite(l, FeedNext(l, Happens(e)), SourceOf(l.c, e), e.stderr, e.data, e.wrote, ReturnOf(l.c, e), x, err);
  }

  /** One write through the route of ch, and the buffer of ch shortened by what was consumed. */
  lemma PortAfterWrite(l: Line, d: Line, ch: Handle, stderr: bool, data: seq<Byte>, wrote: int, ret: int, x: Handle,
                       err: bool)
    requires x in l.route && ch in l.route && PortFaithful(l, x, err)
    requires x != ch && l.route[x].Some? ==> l.route[x] != l.route[ch]
    requires data == At(l.pending, (ch, stderr)) && -1 <= wrote <= |data|
    requires WritesThere(l.c, d.c, l.route[ch], stderr, Accepted(data, wrote))
    requires l.route[ch].Some? ==> ret == wrote
    requires d == l.(c := d.c, pending := l.pending[(ch, stderr) := data[Consumed(data, ret)..]])
    ensures PortFaithful(d, x, err)
  {
    hide Sent, Accepted;
    if l.route[x].Some? && l.route[ch].Some? {
      var to := l.route[x].value;
      SentOneMore(l.c.log, d.c.log, to, err);
      if x == ch && err == stderr {
        AcceptedIsConsumed(data, wrote);
        SumAssociates(Sent(l.c.log, to, err), Accepted(data, wrote), data[Consumed(data, wrote)..]);
      }
    } else if l.route[x].None? {
      SuffixOfSuffix(data, Consumed(data, ret), At(l.received, (ch, stderr)));
    }
  }

  lemma SuffixOfSuffix(data: seq<Byte>, n: nat, all: seq<Byte>)
    requires n <= |data|
    ensures IsSuffix(data, all) ==> IsSuffix(data[n..], all)
  {
  }

  lemma EnabledWrote(c: Ctx, e: Event)
    requires Enabled(c, e) && IsData(e)
    ensures -1 <= e.wrote <= |e.data| && c.phase != Done
  {
  }

  // ---------------------------------------------------------------- events that register channels

  /** Routes over handles issued between two moments only, no two to the same target. */
  ghost predicate Fresh(r: map<Handle, Option<Handle>>, from: Handle, to: Handle) {
    && Injective(r)
    && forall x :: x in r ==> from <= x < to && (r[x].Some? ==> from <= r[x].value < to)
  }

  /** Every pair of d has the ends of a pair of c. */
  ghost predicate PairsFrom(c: Ctx, d: Ctx) {
    d.mode == c.mode &&
    forall p :: p in Items(d) ==> exists q :: q in Items(c) && q.source == p.source && q.destiny == p.destiny
  }

  lemma RegisteredFrom(c: Ctx, d: Ctx, route: map<Handle, Option<Handle>>)
    requires Registered(c, route) && PairsFrom(c, d) && d.trapChannel == c.trapChannel && d.haasChannel == c.haasChannel
    ensures Registered(d, route)
  {
    forall p | p in Items(d)
      ensures PairRoutes(p, d.mode).Keys <= route.Keys
      ensures forall h :: h in PairRoutes(p, d.mode) ==> route[h] == PairRoutes(p, d.mode)[h]
    {
      var q :| q in Items(c) && q.source == p.source && q.destiny == p.destiny;
      assert PairRoutes(q, c.mode) == PairRoutes(p, d.mode);
    }
  }

  lemma CloseAtPairs(c: Ctx, i: nat)
    requires i < |Items(c)|
    ensures PairsFrom(c, MarkClosed(c, i)) && NoneRegistered(c, MarkClosed(c, i))
  {
    var d := MarkClosed(c, i);
    forall p | p in Items(d)
      ensures exists q :: q in Items(c) && q.source == p.source && q.destiny == p.destiny
    {
      var k :| 0 <= k < |Items(d)| && Items(d)[k] == p;
      assert Items(c)[k] in Items(c) && Items(c)[k].source == p.source && Items(c)[k].destiny == p.destiny;
    }
  }

  lemma SweepPairs(items: seq<Pair>)
    ensures forall p :: p in Sweep(items) ==> p in items
  {
    forall p | p in Sweep(items)
      ensures p in items
    {
      SweepCount(items, p);
      assert p in multiset(Sweep(items));
    }
  }

  lemma SameItems(c: Ctx, d: Ctx)
    requires Items(d) == Items(c) && d.mode == c.mode
    ensures PairsFrom(c, d)
  {
  }

  /** Nothing that happens between c and d registers a channel. */
  ghost predicate NoneRegistered(c: Ctx, d: Ctx) {
    d.trapChannel == c.trapChannel && d.haasChannel == c.haasChannel && PairsFrom(c, d) && |Items(d)| <= |Items(c)|
  }

  lemma AsideQuiet(c: Ctx, d: Ctx)
    requires d.pool == c.pool && d.mode == c.mode && d.trapChannel == c.trapChannel && d.haasChannel == c.haasChannel
    ensures NoneRegistered(c, d)
  {
    SameItems(c, d);
  }

  lemma AuthQuiet(c: Ctx, outcome: AuthOutcome)
    ensures NoneRegistered(c, DoAuthPassword(c, outcome))
  {
    hide NoneRegistered, AuthFailed;
    AuthFailedOnly(c);
    AuthFailedOnly(Log(OpenSession(c), SessionFree(c.next)));
    AsideQuiet(c, DoAuthPassword(c, outcome));
  }

  lemma TerminalQuiet(c: Ctx, ok: bool)
    ensures NoneRegistered(c, DoPty(c, ok)) && NoneRegistered(c, DoShell(c, ok)) && NoneRegistered(c, DoWindow(c))
  {
    hide NoneRegistered;
    AsideQuiet(c, DoPty(c, ok));
    AsideQuiet(c, DoShell(c, ok));
    AsideQuiet(c, DoWindow(c));
  }

  lemma QuietCallback(c: Ctx, e: Event)
    requires Enabled(c, e) && (e.AuthPassword? || e.Pty? || e.Window? || e.Shell? || e.MainClosed? || e.ForwardClosed?)
    ensures NoneRegistered(c, Next(c, e))
  {
    hide NoneRegistered, DoAuthPassword, DoPty, DoShell, DoWindow, MarkClosed;
    if e.ForwardClosed? {
      CloseAtPairs(c, e.i);
    } else if e.AuthPassword? {
      AuthQuiet(c, e.outcome);
    } else if e.MainClosed? {
      AsideQuiet(c, Next(c, e));
    } else {
      TerminalQuiet(c, if e.Window? then true else e.ok);
    }
  }

  lemma SweepQuiet(c: Ctx)
    requires PairsShaped(c)
    ensures NoneRegistered(c, ReleaseClosed(c).(sweeping := NotPolling))
  {
    hide ReleaseClosed, PairsFrom, Sweep, Shaped;
    ReleaseClosedSweeps(c);
    SweepPairs(Items(c));
    SweepShaped(Items(c), c.mode);
    SubsetPairs(c, ReleaseClosed(c).(sweeping := NotPolling));
  }

  lemma PollForwardQuiet(c: Ctx, eof: bool)
    requires Enabled(c, PollForward(eof))
    ensures NoneRegistered(c, DoPollForward(c, eof))
  {
    hide PairsFrom;
    PollForwardPairs(c, eof);
  }

  lemma PollsQuiet(c: Ctx, t: Option<Handle>, h: Option<Handle>)
    ensures NoneRegistered(c, UseIfSome(UseIfSome(c, t), h))
  {
    hide UseIfSome, NoneRegistered;
    UseFlags(c, t);
    UseFlags(UseIfSome(c, t), h);
    AsideQuiet(c, UseIfSome(UseIfSome(c, t), h));
  }

  lemma PollDoneQuiet(c: Ctx, leave: bool)
    requires DoPollDone(c, leave).phase != Done
    ensures NoneRegistered(c, DoPollDone(c, leave))
  {
    hide LeaveWait, LeaveRelay, NoneRegistered;
    LeavingIsDone(c);
    AsideQuiet(c, DoPollDone(c, leave));
  }

  lemma ShapedNow(c: Ctx)
    requires HandleInv(c)
    ensures PairsShaped(c)
  {
  }

  lemma QuietLoop(c: Ctx, e: Event)
    requires HandleInv(c) && Enabled(c, e) && !IsCallback(e) && Next(c, e).phase != Done
    ensures NoneRegistered(c, Next(c, e))
  {
    hide TearDown, LeaveWait, LeaveRelay, UseIfSome, DoPollDone, ReleaseClosed, DoPollForward, NoneRegistered,
         HandleInv, Items;
    if e.PollForward? {
      PollForwardQuiet(c, e.eof);
    } else if e.SweepEnds? {
      ShapedNow(c);
      SweepQuiet(c);
    } else if e.PollDone? {
      PollDoneQuiet(c, e.leave);
    } else if e.RelayTop? {
      PollsQuiet(c, c.trapChannel, c.haasChannel);
    } else {
      LeavingIsDone(c);
      AsideQuiet(c, Next(c, e));
    }
  }

  /** No event other than the two requests registers a channel. */
  lemma NothingNew(c: Ctx, e: Event)
    requires HandleInv(c) && Enabled(c, e) && !IsData(e) && !e.NewChannel? && !e.DirectTcpip?
    requires Next(c, e).phase != Done
    ensures NoneRegistered(c, Next(c, e)) && NewRoutes(c, Next(c, e)) == map[]
  {
    hide Next;
    if IsCallback(e) {
      QuietCallback(c, e);
    } else {
      QuietLoop(c, e);
    }
  }

  lemma SubsetPairs(c: Ctx, d: Ctx)
    requires d.mode == c.mode && forall p :: p in Items(d) ==> p in Items(c)
    ensures PairsFrom(c, d)
  {
  }

  lemma PollForwardPairs(c: Ctx, eof: bool)
    requires Enabled(c, PollForward(eof))
    ensures var d := DoPollForward(c, eof);
            && d.trapChannel == c.trapChannel && d.haasChannel == c.haasChannel && PairsFrom(c, d)
            && |Items(d)| == |Items(c)|
  {
    hide PairsFrom;
    var d := DoPollForward(c, eof);
    var i := c.sweeping.i;
    CloseAtPairs(c, i);
    if Items(d) == Items(c) {
      SameItems(c, d);
    } else {
      assert Items(d) == Items(MarkClosed(c, i));
      SamePairs(c, MarkClosed(c, i), d);
    }
  }

  lemma SamePairs(c: Ctx, x: Ctx, d: Ctx)
    requires PairsFrom(c, x) && Items(d) == Items(x) && d.mode == x.mode
    ensures PairsFrom(c, d)
  {
  }

  lemma NewChannelItems(c: Ctx, trapNew: bool, haasNew: bool, openOk: bool)
    requires HandleInv(c)
    ensures var d := DoNewChannel(c, trapNew, haasNew, openOk);
            && Items(d) == Items(c) && d.mode == c.mode && d.next >= c.next
            && if c.trapChannel.None? && d.trapChannel.Some? then
                 d.trapChannel == Some(c.next) && d.haasChannel == Some(c.next + 1) && d.next == c.next + 2
               else d.trapChannel == c.trapChannel && d.haasChannel == c.haasChannel
  {
  }

  /** Fresh routes leave the old ones alone. */
  lemma RegisteredExtended(c: Ctx, route: map<Handle, Option<Handle>>, r: map<Handle, Option<Handle>>, from: Handle,
                           to: Handle)
    requires Registered(c, route) && Issued(route, from) && Fresh(r, from, to)
    ensures Registered(c, route + r)
    ensures forall x :: x in route ==> x !in r && (route + r)[x] == route[x]
  {
    assert forall x :: x in route ==> x !in r && (route + r)[x] == route[x];
  }

  lemma NewChannelRoutes(c: Ctx, trapNew: bool, haasNew: bool, openOk: bool, route: map<Handle, Option<Handle>>)
    requires HandleInv(c) && Registered(c, route) && Issued(route, c.next)
    ensures var d := DoNewChannel(c, trapNew, haasNew, openOk);
            && Fresh(NewRoutes(c, d), c.next, d.next) && Registered(d, route + NewRoutes(c, d))
  {
    hide HandleInv, DoNewChannel;
    var d := DoNewChannel(c, trapNew, haasNew, openOk);
    NewChannelItems(c, trapNew, haasNew, openOk);
    var r := NewRoutes(c, d);
    assert Fresh(r, c.next, d.next);
    RegisteredExtended(c, route, r, c.next, d.next);
    MainRegistered(c, d, route + r);
  }

  lemma MainRegistered(c: Ctx, d: Ctx, route: map<Handle, Option<Handle>>)
    requires Registered(c, route) && Items(d) == Items(c) && d.mode == c.mode
    requires d.trapChannel.Some? && d.haasChannel.Some? ==>
               && d.trapChannel.value in route && route[d.trapChannel.value] == d.haasChannel
               && d.haasChannel.value in route && route[d.haasChannel.value] == d.trapChannel
    ensures Registered(d, route)
  {
  }

  /** The pair a direct-tcpip request adds, if any, has two fresh ends that differ. */
  lemma DirectTcpipItems(c: Ctx, e: Event)
    requires HandleInv(c) && Enabled(c, e) && e.DirectTcpip?
    ensures var d := Next(c, e);
            && d.mode == c.mode && d.next >= c.next && d.trapChannel == c.trapChannel && d.haasChannel == c.haasChannel
            && (Items(d) == Items(c)
                || (&& Items(d) != [] && Items(d) == Items(c) + [Items(d)[|Items(d)| - 1]]
                    && FreshEnds(Items(d)[|Items(d)| - 1], c.next, d.next)))
  {
    hide Refuse, OpenFar, Store;
    DirectTcpipStep(c, e.dstNew, e.openOk, e.accepted, e.pairNew, e.reallocated);
    var far := OpenFar(c, e.dstNew, e.openOk);
    OpenFarHandles(c, e.dstNew, e.openOk);
    RefuseOnlyLogs(far.c, None, far.dst);
    var c1 := OpenChannel(far.c, c.trapSession);
    RefuseOnlyLogs(c1, Some(far.c.next), far.dst);
    StoreHandles(c1, far.c.next, far.dst, e.pairNew, e.reallocated);
  }

  predicate FreshEnds(p: Pair, from: Handle, to: Handle) {
    && (p.source.Some? ==> from <= p.source.value < to)
    && (p.destiny.Some? ==> from <= p.destiny.value < to)
    && (p.source.Some? && p.destiny.Some? ==> p.source != p.destiny)
  }

  lemma OpenFarHandles(c: Ctx, dstNew: bool, openOk: bool)
    ensures var far := OpenFar(c, dstNew, openOk);
            && far.c == c.(log := far.c.log, next := far.c.next) && far.c.next >= c.next
            && (far.dst.Some? ==> c.next <= far.dst.value < far.c.next)
  {
  }

  lemma StoreHandles(c: Ctx, src: Handle, dst: Option<Handle>, pairNew: bool, reallocated: bool)
    ensures var d := Store(c, src, dst, pairNew, reallocated);
            && d.next >= c.next
            && (Items(d) == Items(c)
                || (Items(d) == Items(c) + [Items(d)[|Items(c)|]] && Items(d)[|Items(c)|].source == Some(src)
                    && Items(d)[|Items(c)|].destiny == dst))
  {
    hide Refuse;
    RefuseOnlyLogs(Log(Log(c, PairNew(c.next)).(next := c.next + 1), PairFree(c.next)), Some(src), dst);
    RefuseOnlyLogs(c, Some(src), dst);
  }

  lemma DirectTcpipRoutes(c: Ctx, e: Event, route: map<Handle, Option<Handle>>)
    requires HandleInv(c) && Enabled(c, e) && e.DirectTcpip? && Registered(c, route) && Issued(route, c.next)
    ensures var d := Next(c, e);
            && Fresh(NewRoutes(c, d), c.next, d.next) && Registered(d, route + NewRoutes(c, d))
  {
    hide Next, HandleInv, Enabled;
    var d := Next(c, e);
    DirectTcpipItems(c, e);
    var r := NewRoutes(c, d);
    if Items(d) == Items(c) {
      SameItems(c, d);
      RegisteredFrom(c, d, route);
      assert r == map[];
      assert route + r == route;
    } else {
      var p := Items(d)[|Items(d)| - 1];
      assert r == PairRoutes(p, d.mode);
      assert Fresh(r, c.next, d.next);
      RegisteredExtended(c, route, r, c.next, d.next);
      PairRegistered(c, d, p, route + r);
    }
  }

  lemma PairRegistered(c: Ctx, d: Ctx, p: Pair, route: map<Handle, Option<Handle>>)
    requires Registered(c, route) && Items(d) == Items(c) + [p] && d.mode == c.mode
    requires d.trapChannel == c.trapChannel && d.haasChannel == c.haasChannel
    requires var r := PairRoutes(p, d.mode); r.Keys <= route.Keys && forall h :: h in r ==> route[h] == r[h]
    ensures Registered(d, route)
  {
    assert forall q :: q in Items(d) ==> q in Items(c) || q == p;
  }

  lemma RoutesStep(c: Ctx, e: Event, route: map<Handle, Option<Handle>>)
    requires HandleInv(c) && Enabled(c, e) && !IsData(e) && Registered(c, route) && Issued(route, c.next)
    ensures var d := Next(c, e);
            d.phase != Done ==> Fresh(NewRoutes(c, d), c.next, d.next) && Registered(d, route + NewRoutes(c, d))
  {
    if e.NewChannel? {
      NewChannelRoutes(c, e.trapNew, e.haasNew, e.openOk, route);
    } else if e.DirectTcpip? {
      DirectTcpipRoutes(c, e, route);
    } else {
      hide Next;
      var d := Next(c, e);
      if d.phase != Done {
        NothingNew(c, e);
        RegisteredFrom(c, d, route);
        assert route + map[] == route;
      }
    }
  }

  lemma DoneRoutes(c: Ctx, e: Event)
    requires HandleInv(c) && Enabled(c, e) && !IsData(e) && Next(c, e).phase == Done
    ensures NewRoutes(c, Next(c, e)) == map[]
  {
    if IsCallback(e) {
      hide Next;
      CallbackStep(c, e);
    } else {
      hide Next, Emptied;
      OnlyLeavingIsDone(c, e);
      EmptiedRoutes(c, Next(c, e));
    }
  }

  lemma EmptiedRoutes(c: Ctx, d: Ctx)
    requires Emptied(c, d)
    ensures NewRoutes(c, d) == map[]
  {
  }

  /** Adding fresh routes keeps what is known of the old ones. */
  lemma RoutesGrow(l: Line, d: Line, r: map<Handle, Option<Handle>>)
    requires Injective(l.route) && Issued(l.route, l.c.next) && Faithful(l) && Fresh(r, l.c.next, d.c.next)
    requires d.c.next >= l.c.next
    requires d == l.(c := d.c, route := l.route + r)
    requires forall to, err :: Sent(d.c.log, to, err) == Sent(l.c.log, to, err)
    ensures Injective(d.route) && Issued(d.route, d.c.next) && Faithful(d)
  {
    hide Sent;
    assert forall x :: x in d.route ==> x in l.route || x in r;
    forall x, err | x in d.route
      ensures PortFaithful(d, x, err)
    {
      if x in r {
        FreshPort(l, r, x, err);
      } else {
        assert PortFaithful(l, x, err);
      }
    }
    forall to: Handle, err | !IsTarget(d.route, to)
      ensures Sent(d.c.log, to, err) == []
    {
      TargetsKept(l.route, r, to);
    }
  }

  lemma TargetsKept(route: map<Handle, Option<Handle>>, r: map<Handle, Option<Handle>>, to: Handle)
    requires route.Keys !! r.Keys && !IsTarget(route + r, to)
    ensures !IsTarget(route, to)
  {
    assert forall x :: x in route ==> x in route + r && (route + r)[x] == route[x];
  }

  /** A channel just registered has received nothing, and its target was sent nothing. */
  lemma FreshPort(l: Line, r: map<Handle, Option<Handle>>, x: Handle, err: bool)
    requires Issued(l.route, l.c.next) && Faithful(l) && x in r && x >= l.c.next
    requires r[x].Some? ==> r[x].value >= l.c.next
    ensures At(l.pending, (x, err)) == [] && At(l.received, (x, err)) == []
    ensures r[x].Some? ==> Sent(l.c.log, r[x].value, err) == []
  {
    hide Sent;
    assert x !in l.route;
    if r[x].Some? {
      assert !IsTarget(l.route, r[x].value);
    }
  }

  lemma OtherKeeps(l: Line, e: Event)
    requires LineInv(l) && FeedEnabled(l, Happens(e)) && !IsData(e)
    ensures LineInv(FeedNext(l, Happens(e)))
  {
    hide Next, Enabled, HandleInv, Registered, Injective, Issued, Faithful, Fresh, NewRoutes;
    var c, d := l.c, FeedNext(l, Happens(e));
    EnabledNotDone(c, e);
    QuietStep(c, e);
    if d.c.phase == Done {
      DoneRoutes(c, e);
      assert Fresh(map[], c.next, d.c.next) by {
        FreshNothing(c.next, d.c.next);
      }
    } else {
      RoutesStep(c, e, l.route);
      if IsCallback(e) {
        CallbackStep(c, e);
      } else {
        LoopStep(c, e);
      }
    }
    RoutesGrow(l, d, NewRoutes(c, d.c));
  }

  lemma FreshNothing(from: Handle, to: Handle)
    ensures Fresh(map[], from, to)
  {
  }

  lemma EnabledNotDone(c: Ctx, e: Event)
    requires Enabled(c, e)
    ensures c.phase != Done
  {
  }

  lemma QuietStep(c: Ctx, e: Event)
    requires Enabled(c, e) && !IsData(e)
    ensures Next(c, e).next >= c.next
    ensures forall to, err :: Sent(Next(c, e).log, to, err) == Sent(c.log, to, err)
  {
    hide Next, Sent, Enabled, Grows, Foreign;
    NothingForeign(c);
    NextGrows(c, e, None);
    forall to, err
      ensures Sent(Next(c, e).log, to, err) == Sent(c.log, to, err)
    {
      SentQuiet(c.log, Next(c, e).log, None, KindOf(e), to, err);
    }
  }

  lemma FeedStartInv(mode: Mode, poolNew: bool)
    ensures LineInv(FeedStart(mode, poolNew))
  {
    var c := Start(mode, poolNew);
    assert c.log[..0] == [];
    assert Items(c) == [];
  }

  lemma {:induction false} LineInvRun(mode: Mode, poolNew: bool, fs: seq<Feed>)
    requires FeedLegal(FeedStart(mode, poolNew), fs)
    ensures LineInv(FeedRun(FeedStart(mode, poolNew), fs))
  {
    hide LineInv, FeedStart;
    if fs == [] {
      FeedStartInv(mode, poolNew);
    } else {
      var before, f := fs[..|fs| - 1], fs[|fs| - 1];
      LineInvRun(mode, poolNew, before);
      var l := FeedRun(FeedStart(mode, poolNew), before);
      match f {
        case Arrive(ch, stderr, bytes) => ArriveKeeps(l, ch, stderr, bytes);
        case Happens(e) =>
          if IsData(e) {
            DataKeeps(l, e);
          } else {
            OtherKeeps(l, e);
          }
      }
    }
  }

  // ---------------------------------------------------------------- whole runs

  /** One stream from a channel to its peer: what was sent on, then what is buffered, is what came in. */
  predicate Carries(l: Line, from: Handle, to: Handle, stderr: bool) {
    Sent(l.c.log, to, stderr) + At(l.pending, (from, stderr)) == At(l.received, (from, stderr))
  }

  /** What the peers of a pair are owed, by mode. */
  predicate PairCarries(l: Line, p: Pair, stderr: bool) {
    match l.c.mode
    case Allow =>
      p.source.Some? && p.destiny.Some?
      && Carries(l, p.source.value, p.destiny.value, stderr) && Carries(l, p.destiny.value, p.source.value, stderr)
    case Echo => p.source.Some? && Carries(l, p.source.value, p.source.value, stderr)
    case _ => true
  }

  lemma RoutedCarries(l: Line, from: Handle, to: Handle, stderr: bool)
    requires LineInv(l) && from in l.route && l.route[from] == Some(to)
    ensures Carries(l, from, to, stderr)
  {
    hide Sent, Registered, HandleInv, Injective, Issued;
    assert PortFaithful(l, from, stderr);
  }

  lemma PairRouted(l: Line, p: Pair, stderr: bool)
    requires LineInv(l) && l.c.phase != Done && p in Items(l.c)
    ensures PairCarries(l, p, stderr)
    ensures l.c.mode == Null ==> p.source.Some? && p.source.value in l.route && l.route[p.source.value].None?
  {
    hide Carries, LineInv, Injective, Issued, Faithful;
    RoutesOf(l, p);
    var r := PairRoutes(p, l.c.mode);
    if l.c.mode == Allow {
      RoutedCarries(l, p.source.value, p.destiny.value, stderr);
      RoutedCarries(l, p.destiny.value, p.source.value, stderr);
    } else if l.c.mode == Echo {
      RoutedCarries(l, p.source.value, p.source.value, stderr);
    }
  }

  /** A pooled pair's channels have the routes of its mode. */
  lemma RoutesOf(l: Line, p: Pair)
    requires LineInv(l) && l.c.phase != Done && p in Items(l.c)
    ensures p.source.Some? && p.destiny.Some? == (l.c.mode == Allow) && p.source != p.destiny
    ensures l.c.mode == Allow ==>
              && p.source.value in l.route && l.route[p.source.value] == p.destiny
              && p.destiny.value in l.route && l.route[p.destiny.value] == p.source
    ensures l.c.mode == Echo ==> p.source.value in l.route && l.route[p.source.value] == p.source
    ensures l.c.mode == Null ==> p.source.value in l.route && l.route[p.source.value].None?
  {
    hide Injective, Issued, Faithful;
    var r := PairRoutes(p, l.c.mode);
    assert r.Keys <= l.route.Keys && forall h :: h in r ==> l.route[h] == r[h];
    assert forall h :: h in r ==> h in r.Keys;
  }

  lemma MainRouted(l: Line, stderr: bool)
    requires LineInv(l) && l.c.phase != Done && l.c.trapChannel.Some?
    ensures l.c.haasChannel.Some?
    ensures Carries(l, l.c.trapChannel.value, l.c.haasChannel.value, stderr)
    ensures Carries(l, l.c.haasChannel.value, l.c.trapChannel.value, stderr)
  {
    hide Carries, Injective, Issued, Faithful;
    RoutedCarries(l, l.c.trapChannel.value, l.c.haasChannel.value, stderr);
    RoutedCarries(l, l.c.haasChannel.value, l.c.trapChannel.value, stderr);
  }

  /**
   Stream fidelity: over every run and for stdout and stderr apart, the bytes written to the peer
   followed by the bytes not yet consumed are the bytes received, whatever the writes accepted - from
   the client to the HaaS server and back, from either end of every forward in ALLOW to the other, and
   from a forward back to itself in ECHO.
   */
  lemma {:induction false} StreamFidelity(mode: Mode, poolNew: bool, fs: seq<Feed>, stderr: bool)
    requires FeedLegal(FeedStart(mode, poolNew), fs)
    ensures var l := FeedRun(FeedStart(mode, poolNew), fs);
            l.c.phase != Done ==>
              && (l.c.trapChannel.Some? ==>
                    && l.c.haasChannel.Some?
                    && Carries(l, l.c.trapChannel.value, l.c.haasChannel.value, stderr)
                    && Carries(l, l.c.haasChannel.value, l.c.trapChannel.value, stderr))
              && forall p :: p in Items(l.c) ==> PairCarries(l, p, stderr)
  {
    hide FeedRun, FeedLegal, FeedStart, LineInv, Carries, PairCarries;
    LineInvRun(mode, poolNew, fs);
    var l := FeedRun(FeedStart(mode, poolNew), fs);
    if l.c.phase != Done {
      if l.c.trapChannel.Some? {
        MainRouted(l, stderr);
      }
      forall p | p in Items(l.c)
        ensures PairCarries(l, p, stderr)
      {
        PairRouted(l, p, stderr);
      }
    }
  }

  /**
   The same for every channel that ever had a peer, also after it has gone; and a channel that was
   nobody's peer was sent nothing.
   */
  lemma {:induction false} PeersFaithful(mode: Mode, poolNew: bool, fs: seq<Feed>, ch: Handle, stderr: bool)
    requires FeedLegal(FeedStart(mode, poolNew), fs)
    ensures var l := FeedRun(FeedStart(mode, poolNew), fs);
            && (ch in l.route && l.route[ch].Some? ==> Carries(l, ch, l.route[ch].value, stderr))
            && (!IsTarget(l.route, ch) ==> Sent(l.c.log, ch, stderr) == [])
  {
    hide FeedRun, FeedLegal, FeedStart, Sent, Injective, Issued, Registered, HandleInv;
    LineInvRun(mode, poolNew, fs);
    var l := FeedRun(FeedStart(mode, poolNew), fs);
    assert ch in l.route ==> PortFaithful(l, ch, stderr);
  }

  // ---------------------------------------------------------------- NULL

  /** What arrived on a port since the last callback for it that was told of at most INT_MAX bytes. */
  function Unheard(start: Line, fs: seq<Feed>, p: Port): seq<Byte>
    requires FeedLegal(start, fs)
  {
    if fs == [] then []
    else
      var before, f := fs[..|fs| - 1], fs[|fs| - 1];
      var c := FeedRun(start, before).c;
      match f
      case Arrive(ch, stderr, bytes) => Unheard(start, before, p) + (if (ch, stderr) == p then bytes else [])
      case Happens(e) =>
        if IsData(e) && (SourceOf(c, e), e.stderr) == p && |e.data| <= INT_MAX then [] else Unheard(start, before, p)
  }

  /** In NULL a callback writes nothing, and consumes all it is told of exactly up to INT_MAX bytes, else nothing. */
  lemma NullSwallows(c: Ctx, e: Event, route: map<Handle, Option<Handle>>)
    requires HandleInv(c) && Registered(c, route) && Enabled(c, e) && IsData(e)
    requires SourceOf(c, e) in route && route[SourceOf(c, e)].None?
    ensures c.mode == Null && Next(c, e) == c
    ensures Consumed(e.data, ReturnOf(c, e)) == if |e.data| <= INT_MAX then |e.data| else 0
  {
    hide WriteTo;
    if e.ForwardData? {
      var p := Items(c)[e.i];
      assert p in Items(c);
      var r := PairRoutes(p, c.mode);
      assert r.Keys <= route.Keys && forall h :: h in r ==> route[h] == r[h];
      assert SourceOf(c, e) in r.Keys;
    }
  }

  /** What is pending on p is what was not heard, if p goes nowhere; and nothing is, if p is not registered. */
  predicate Listens(l: Line, p: Port, unheard: seq<Byte>) {
    && (p.0 !in l.route ==> unheard == [] && At(l.pending, p) == [])
    && (p.0 in l.route && l.route[p.0].None? ==> unheard == At(l.pending, p))
  }

  lemma ArriveListens(l: Line, ch: Handle, stderr: bool, bytes: seq<Byte>, p: Port, unheard: seq<Byte>)
    requires Listens(l, p, unheard) && ch in l.route
    ensures Listens(FeedNext(l, Arrive(ch, stderr, bytes)), p, unheard + (if (ch, stderr) == p then bytes else []))
  {
    assert unheard + [] == unheard;
  }

  lemma DataListens(l: Line, e: Event, p: Port, unheard: seq<Byte>)
    requires LineInv(l) && FeedEnabled(l, Happens(e)) && IsData(e) && Listens(l, p, unheard)
    ensures Listens(FeedNext(l, Happens(e)), p,
                    if (SourceOf(l.c, e), e.stderr) == p && |e.data| <= INT_MAX then [] else unheard)
  {
    hide Next, Injective, Issued, Faithful, HandleInv, Registered, Enabled, Consumed;
    EnabledWrote(l.c, e);
    DataWrites(l.c, e, l.route);
    if l.route[SourceOf(l.c, e)].None? {
      NullSwallows(l.c, e, l.route);
    }
  }

  lemma OtherListens(l: Line, e: Event, p: Port, unheard: seq<Byte>)
    requires LineInv(l) && FeedEnabled(l, Happens(e)) && !IsData(e) && Listens(l, p, unheard)
    ensures Listens(FeedNext(l, Happens(e)), p, unheard)
  {
    hide Next, Injective, Faithful, HandleInv, Registered, Enabled, NewRoutes;
    var c, d := l.c, Next(l.c, e);
    EnabledNotDone(c, e);
    if d.phase == Done {
      DoneRoutes(c, e);
    } else {
      RoutesStep(c, e, l.route);
    }
  }

  lemma {:induction false} ListensRun(mode: Mode, poolNew: bool, start: Line, fs: seq<Feed>, p: Port)
    requires start == FeedStart(mode, poolNew) && FeedLegal(start, fs)
    ensures Listens(FeedRun(start, fs), p, Unheard(start, fs, p))
  {
    hide LineInv, Listens, FeedStart;
    if fs == [] {
      StartListens(mode, poolNew, p);
    } else {
      var before, f := fs[..|fs| - 1], fs[|fs| - 1];
      LineInvRun(mode, poolNew, before);
      ListensRun(mode, poolNew, start, before, p);
      var l, unheard := FeedRun(start, before), Unheard(start, before, p);
      if f.Arrive? {
        ArriveListens(l, f.ch, f.stderr, f.bytes, p, unheard);
      } else if IsData(f.e) {
        DataListens(l, f.e, p, unheard);
      } else {
        OtherListens(l, f.e, p, unheard);
      }
    }
  }

  lemma StartListens(mode: Mode, poolNew: bool, p: Port)
    ensures Listens(FeedStart(mode, poolNew), p, [])
  {
  }

  /**
   NULL over every run: what is pending on a forward is exactly what arrived since its last callback.
   A callback told of more than INT_MAX bytes does not count as one: it consumes nothing.
   */
  lemma {:induction false} NullForwards(poolNew: bool, start: Line, fs: seq<Feed>, stderr: bool)
    requires start == FeedStart(Null, poolNew) && FeedLegal(start, fs) && FeedRun(start, fs).c.phase != Done
    ensures var l := FeedRun(start, fs);
            forall p :: p in Items(l.c) ==>
              && p.source.Some?
              && At(l.pending, (p.source.value, stderr)) == Unheard(start, fs, (p.source.value, stderr))
  {
    hide FeedRun, FeedLegal, LineInv, PairCarries, Unheard, FeedStart;
    LineInvRun(Null, poolNew, fs);
    var l := FeedRun(start, fs);
    ModeStays(Null, poolNew, fs);
    forall p | p in Items(l.c)
      ensures p.source.Some? && At(l.pending, (p.source.value, stderr)) == Unheard(start, fs, (p.source.value, stderr))
    {
      PairRouted(l, p, stderr);
      ListensRun(Null, poolNew, start, fs, (p.source.value, stderr));
    }
  }

  lemma {:induction false} ModeStays(mode: Mode, poolNew: bool, fs: seq<Feed>)
    requires FeedLegal(FeedStart(mode, poolNew), fs)
    ensures var c := FeedRun(FeedStart(mode, poolNew), fs).c; c.phase != Done ==> c.mode == mode
  {
    hide LineInv, HandleInv, Next;
    if fs != [] {
      var before, f := fs[..|fs| - 1], fs[|fs| - 1];
      ModeStays(mode, poolNew, before);
      LineInvRun(mode, poolNew, before);
      var l := FeedRun(FeedStart(mode, poolNew), before);
      if f.Happens? && Next(l.c, f.e).phase != Done {
        ModeStep(l, f.e);
      }
    }
  }

  lemma ModeStep(l: Line, e: Event)
    requires LineInv(l) && Enabled(l.c, e) && Next(l.c, e).phase != Done
    ensures Next(l.c, e).mode == l.c.mode && l.c.phase != Done
  {
    hide Next, Enabled, HandleInv, Registered, Injective, Issued, Faithful;
    EnabledNotDone(l.c, e);
    if IsCallback(e) {
      CallbackStep(l.c, e);
    } else {
      LoopStep(l.c, e);
    }
  }

  /** A forward is opened in NULL, bytes arrive on it, and its callback is told of all of them at once. */
  function NullSession(bytes: seq<Byte>): seq<Feed> {
    [Happens(DirectTcpip(true, true, true, true, true)), Arrive(1, false, bytes),
     Happens(ForwardData(0, true, false, bytes, -1))]
  }

  lemma FeedExtend(start: Line, fs: seq<Feed>, f: Feed)
    requires FeedLegal(start, fs) && FeedEnabled(FeedRun(start, fs), f)
    ensures FeedLegal(start, fs + [f]) && FeedRun(start, fs + [f]) == FeedNext(FeedRun(start, fs), f)
  {
    assert (fs + [f])[..|fs|] == fs;
  }

  /** In NULL more than INT_MAX bytes at once are consumed by nobody: all of them are still pending. */
  lemma NullKeepsTooMany(bytes: seq<Byte>)
    requires INT_MAX < |bytes| <= UINT_MAX
    ensures FeedLegal(FeedStart(Null, true), NullSession(bytes))
    ensures var l := FeedRun(FeedStart(Null, true), NullSession(bytes));
            && l.c.phase != Done && |Items(l.c)| == 1 && Items(l.c)[0].source == Some(1)
            && At(l.pending, (1, false)) == bytes
  {
    hide FeedLegal, FeedRun, FeedEnabled, FeedNext, FeedStart;
    var s, fs := FeedStart(Null, true), NullSession(bytes);
    assert [] + [fs[0]] == [fs[0]] && [fs[0]] + [fs[1]] == fs[..2] && fs[..2] + [fs[2]] == fs;
    NoFeed(s);
    NullOpens();
    FeedExtend(s, [], fs[0]);
    NullArrives(FeedRun(s, [fs[0]]), bytes);
    FeedExtend(s, [fs[0]], fs[1]);
    FeedExtend(s, fs[..2], fs[2]);
  }

  lemma NoFeed(s: Line)
    ensures FeedLegal(s, []) && FeedRun(s, []) == s
  {
  }

  /** The forward is open, over channel 1. */
  predicate NullOpen(l: Line) {
    && l.c.phase == Kex && l.c.mode == Null && !l.c.disconnected && |Items(l.c)| == 1 && Items(l.c)[0].source == Some(1)
    && 1 in l.route && l.pending == map[]
  }

  lemma NullOpens()
    ensures var s, f := FeedStart(Null, true), Happens(DirectTcpip(true, true, true, true, true));
            FeedEnabled(s, f) && NullOpen(FeedNext(s, f))
  {
  }

  lemma NullArrives(l: Line, bytes: seq<Byte>)
    requires NullOpen(l) && INT_MAX < |bytes| <= UINT_MAX
    ensures var f, e := Arrive(1, false, bytes), ForwardData(0, true, false, bytes, -1);
            && FeedEnabled(l, f) && FeedEnabled(FeedNext(l, f), Happens(e))
            && var d := FeedNext(FeedNext(l, f), Happens(e));
               d.c == l.c && At(d.pending, (1, false)) == bytes
  {
    assert [] + bytes == bytes;
    assert bytes[0..] == bytes;
  }
}
