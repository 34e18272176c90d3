/**
 What ProxyProcess does with a script, as a flat machine: one move takes at most one stimulus and makes
 at most one event.  The loops of the program are told apart by a point.  The machine is deterministic,
 so that whoever shows that it comes to a moment has said all there is about the run up to there.
 */
module Scripts {
  import opened Common
  import opened Ledger
  import opened Session
  import opened Handles
  import Growth

  /**
   Where the program stands: in the key exchange, in the first event loop, at the top of a turn of the
   relay loop, in HandleForwards, in the poll of the relay loop, or at its end.
   */
  datatype Point = AtKex | AtWait | AtTop | AtForwards | AtPoll | AtEnd

  /** The run so far, and how much of the script it has used. */
  datatype Moment = Moment(at: Point, c: Ctx, es: seq<Event>, next: nat)

  /** The loop a phase belongs to. */
  function LoopOf(c: Ctx): Point {
    match c.phase
    case Kex => AtKex
    case Wait => AtWait
    case Relay => AtTop
    case Closing | Done => AtEnd
  }

  /** An end of a forward is due to be polled. */
  predicate PollDue(c: Ctx) {
    match c.sweeping
    case NotPolling => false
    case AtSource(i, count) => i < count <= |Items(c)|
    case AtDestiny(i, count) => i < count <= |Items(c)|
  }

  function PolledEnd(c: Ctx): Option<Handle>
    requires PollDue(c)
  {
    if c.sweeping.AtSource? then Items(c)[c.sweeping.i].source else Items(c)[c.sweeping.i].destiny
  }

  /** Whether libssh runs at this point, so that it may make callbacks. */
  predicate Hears(at: Point, c: Ctx) {
    match at
    case AtEnd => false
    case AtForwards => PollDue(c) && PolledEnd(c).Some?
    case _ => true
  }

  /** The event happens, if it can; `at` is where the program goes on. */
  function Do(m: Moment, e: Event, at: Point, next: nat): Moment {
    if Enabled(m.c, e) then Moment(at, Next(m.c, e), m.es + [e], next) else m.(next := next)
  }

  function Used(script: seq<Event>, next: nat): nat { if next < |script| then next + 1 else next }

  /** The outcome of a poll of an event loop. */
  function PollEnds(m: Moment, leave: bool, next: nat): Moment {
    if Enabled(m.c, PollDone(leave)) then Do(m, PollDone(leave), LoopOf(Next(m.c, PollDone(leave))), next) else m
  }

  /** Where a turn of a loop goes on without an outcome. */
  function Again(at: Point): Point { if at.AtPoll? then AtTop else at }

  /** A move that no callback precedes any more. */
  function Act(script: seq<Event>, m: Moment): Moment {
    match m.at
    case AtEnd => m
    case AtKex =>
      var ok := m.next < |script| && script[m.next] == KexDone(true);
      Do(m, KexDone(ok), if ok then AtWait else AtEnd, Used(script, m.next))
    case AtWait | AtPoll =>
      if m.next >= |script| then PollEnds(m, true, m.next)                               // ShouldStop
      else if script[m.next].PollDone? then PollEnds(m, script[m.next].leave, m.next + 1)
      else m.(at := Again(m.at), next := m.next + 1)                                     // SSH_EINTR
    case AtTop => Do(m, RelayTop, AtForwards, m.next)
    case AtForwards =>
      if m.c.sweeping.NotPolling? then
        if Items(m.c) == [] then m.(at := AtPoll) else Do(m, SweepBegins, AtForwards, m.next)
      else if !PollDue(m.c) then Do(m, SweepEnds, AtPoll, m.next)
      else if PolledEnd(m.c).Some? && m.next < |script| && script[m.next].PollForward? then
        Do(m, PollForward(script[m.next].eof), AtForwards, m.next + 1)
      else Do(m, PollForward(false), AtForwards, m.next)
  }

  /** The next stimulus is a callback, at a point where there can be one. */
  predicate CallbackNext(script: seq<Event>, m: Moment) {
    Hears(m.at, m.c) && m.next < |script| && IsCallback(script[m.next])
  }

  function Move(script: seq<Event>, m: Moment): Moment {
    if CallbackNext(script, m) then Do(m, script[m.next], m.at, m.next + 1) else Act(script, m)
  }

  function First(start: Ctx): Moment { Moment(AtKex, start, [], 0) }

  function Moves(script: seq<Event>, start: Ctx, n: nat): Moment {
    if n == 0 then First(start) else Move(script, Moves(script, start, n - 1))
  }

  /** The machine comes to m. */
  ghost predicate Reached(start: Ctx, script: seq<Event>, m: Moment) {
    exists n: nat :: Moves(script, start, n) == m
  }

  lemma FirstReached(start: Ctx, script: seq<Event>)
    ensures Reached(start, script, First(start))
  {
    assert Moves(script, start, 0) == First(start);
  }

  lemma OneMove(start: Ctx, script: seq<Event>, m: Moment)
    requires Reached(start, script, m)
    ensures Reached(start, script, Move(script, m))
  {
    var n: nat :| Moves(script, start, n) == m;
    assert Moves(script, start, n + 1) == Move(script, m);
  }

  // ---------------------------------------------------------------- what the machine does

  /** Its events are a legal run of the transition system, which leads to its state. */
  lemma {:induction false} MovesAreRun(script: seq<Event>, start: Ctx, n: nat)
    ensures var m := Moves(script, start, n); Legal(start, m.es) && m.c == Run(start, m.es)
  {
    hide Legal, Run, Move;
    if n == 0 {
      NoEvents(start);
    } else {
      var m := Moves(script, start, n - 1);
      MovesAreRun(script, start, n - 1);
      OneEvent(script, m);
      if Move(script, m).es != m.es {
        Extend(start, m.es, Move(script, m).es[|m.es|]);
      }
    }
  }

  /** A move makes at most one event, and one that can happen. */
  lemma OneEvent(script: seq<Event>, m: Moment)
    ensures var d := Move(script, m);
            || (d.es == m.es && d.c == m.c)
            || (&& |d.es| == |m.es| + 1 && d.es == m.es + [d.es[|m.es|]]
                && Enabled(m.c, d.es[|m.es|]) && d.c == Next(m.c, d.es[|m.es|]))
  {
    hide Next, Enabled, Items, PollDue, PolledEnd, Hears, LoopOf;
  }

  lemma NoEvents(start: Ctx)
    ensures Legal(start, []) && Run(start, []) == start
  {
  }

  lemma EndMoves(script: seq<Event>, m: Moment)
    requires m.at.AtEnd?
    ensures Move(script, m) == m
  {
  }

  lemma {:induction false} StaysAtEnd(script: seq<Event>, start: Ctx, n: nat, k: nat)
    requires Moves(script, start, n).at.AtEnd?
    ensures Moves(script, start, n + k) == Moves(script, start, n)
  {
    hide Move;
    if k > 0 {
      StaysAtEnd(script, start, n, k - 1);
      EndMoves(script, Moves(script, start, n));
    }
  }

  /** A script determines the session: there is one end, one trace that leads to it, and one place in the script. */
  lemma OneEnd(start: Ctx, script: seq<Event>, m: Moment, d: Moment)
    requires Reached(start, script, m) && Reached(start, script, d) && m.at.AtEnd? && d.at.AtEnd?
    ensures m == d
  {
    hide Moves, Move;
    var n: nat :| Moves(script, start, n) == m;
    var k: nat :| Moves(script, start, k) == d;
    if n <= k {
      StaysAtEnd(script, start, n, k - n);
    } else {
      StaysAtEnd(script, start, k, n - k);
    }
  }

  /** Why a session is at its end: the last event, and the stimulus that called for it. */
  predicate Reason(script: seq<Event>, m: Moment) {
    && m.es != []
    && match m.es[|m.es| - 1]
       case KexDone(ok) => !ok && (m.next >= |script| || (m.next > 0 && script[m.next - 1] != KexDone(true)))
       case PollDone(leave) =>
         || (leave && m.next >= |script|)
         || (0 < m.next <= |script| && script[m.next - 1] == PollDone(leave) && (leave || m.c.closed))
       case _ => false
  }

  lemma TearDownKeepsClosed(c: Ctx)
    ensures TearDown(c).closed == c.closed
  {
    hide DropPool, CloseSessions;
    DropPoolEmpties(c.(phase := Closing));
    Growth.CloseSessionsOnlyLogs(DropPool(c.(phase := Closing)));
  }

  lemma LeavingKeepsClosed(c: Ctx)
    ensures LeaveWait(c).closed == c.closed && LeaveRelay(c).closed == c.closed
  {
    hide TearDown;
    TearDownKeepsClosed(Log(c, EventRemove(c.trapSession)));
    if c.haasSession.Some? {
      TearDownKeepsClosed(Log(Log(c, EventRemove(c.haasSession.value)), EventRemove(c.trapSession)));
    }
  }

  /** A poll outcome ends the session only if it says so or a channel has closed. */
  lemma PollReason(c: Ctx, leave: bool)
    requires Enabled(c, PollDone(leave)) && LoopOf(Next(c, PollDone(leave))).AtEnd?
    ensures leave || Next(c, PollDone(leave)).closed
  {
    hide LeaveWait, LeaveRelay;
    LeavingKeepsClosed(c);
  }

  lemma PollEndsReason(script: seq<Event>, m: Moment, leave: bool, next: nat)
    requires !m.at.AtEnd? && PollEnds(m, leave, next).at.AtEnd?
    requires (leave && next >= |script|) || (0 < next <= |script| && script[next - 1] == PollDone(leave))
    ensures Reason(script, PollEnds(m, leave, next))
  {
    hide LoopOf, Next, Enabled;
    PollReason(m.c, leave);
  }

  lemma ReasonForMove(script: seq<Event>, m: Moment)
    requires !m.at.AtEnd? && Move(script, m).at.AtEnd?
    ensures Reason(script, Move(script, m))
  {
    hide Next, Enabled, Hears, PollDue, PolledEnd, Items, PollEnds;
    if m.at.AtWait? || m.at.AtPoll? {
      if m.next >= |script| {
        PollEndsReason(script, m, true, m.next);
      } else if script[m.next].PollDone? {
        PollEndsReason(script, m, script[m.next].leave, m.next + 1);
      }
    }
  }

  lemma {:induction false} EndHasReason(script: seq<Event>, start: Ctx, n: nat)
    ensures Moves(script, start, n).at.AtEnd? ==> Reason(script, Moves(script, start, n))
  {
    hide Reason;
    if n > 0 {
      EndHasReason(script, start, n - 1);
      var m := Moves(script, start, n - 1);
      if !m.at.AtEnd? && Move(script, m).at.AtEnd? {
        ReasonForMove(script, m);
      }
    }
  }

  /** A session ends because the key exchange failed, the poll was told to leave, or a channel closed. */
  lemma EndsForAReason(start: Ctx, script: seq<Event>, m: Moment)
    requires Reached(start, script, m) && m.at.AtEnd?
    ensures Reason(script, m) && Legal(start, m.es) && m.c == Run(start, m.es)
  {
    hide Reason, Moves, Legal, Run;
    var n: nat :| Moves(script, start, n) == m;
    EndHasReason(script, start, n);
    MovesAreRun(script, start, n);
  }

  // ---------------------------------------------------------------- the moves, one by one

  lemma MoveReached(start: Ctx, script: seq<Event>, m: Moment, d: Moment)
    requires Reached(start, script, m) && Move(script, m) == d
    ensures Reached(start, script, d)
  {
    hide Reached, Move;
    OneMove(start, script, m);
  }

  lemma CallbackMoves(script: seq<Event>, m: Moment)
    requires CallbackNext(script, m)
    ensures Move(script, m) == if Enabled(m.c, script[m.next])
                               then Moment(m.at, Next(m.c, script[m.next]), m.es + [script[m.next]], m.next + 1)
                               else m.(next := m.next + 1)
  {
    hide CallbackNext, Next, Enabled, Act;
  }

  /** No callback comes first. */
  predicate Silent(script: seq<Event>, next: nat) { next >= |script| || !IsCallback(script[next]) }

  lemma KexMoves(script: seq<Event>, m: Moment, ok: bool)
    requires m.at.AtKex? && Silent(script, m.next) && Enabled(m.c, KexDone(ok))
    requires ok == (m.next < |script| && script[m.next] == KexDone(true))
    ensures Move(script, m)
         == Moment(if ok then AtWait else AtEnd, Next(m.c, KexDone(ok)), m.es + [KexDone(ok)], Used(script, m.next))
  {
    hide Next, Enabled;
  }

  lemma TopMoves(script: seq<Event>, m: Moment)
    requires m.at.AtTop? && Silent(script, m.next) && Enabled(m.c, RelayTop)
    ensures Move(script, m) == Moment(AtForwards, Next(m.c, RelayTop), m.es + [RelayTop], m.next)
  {
    hide Next, Enabled;
  }

  lemma NoForwardsMoves(script: seq<Event>, m: Moment)
    requires m.at.AtForwards? && m.c.sweeping.NotPolling? && Items(m.c) == []
    ensures Move(script, m) == m.(at := AtPoll)
  {
  }

  lemma BeginMoves(script: seq<Event>, m: Moment)
    requires m.at.AtForwards? && m.c.sweeping.NotPolling? && Items(m.c) != [] && Enabled(m.c, SweepBegins)
    ensures Move(script, m) == Moment(AtForwards, Next(m.c, SweepBegins), m.es + [SweepBegins], m.next)
  {
    hide Next, Enabled, Items;
  }

  lemma PollMoves(script: seq<Event>, m: Moment, eof: bool)
    requires m.at.AtForwards? && PollDue(m.c) && Enabled(m.c, PollForward(eof))
    requires PolledEnd(m.c).Some? ==> Silent(script, m.next)
    requires var told := PolledEnd(m.c).Some? && m.next < |script| && script[m.next].PollForward?;
             eof == (told && script[m.next].eof)
    ensures var told := PolledEnd(m.c).Some? && m.next < |script| && script[m.next].PollForward?;
            Move(script, m) == Moment(AtForwards, Next(m.c, PollForward(eof)), m.es + [PollForward(eof)],
                                      if told then m.next + 1 else m.next)
  {
    hide Next, Enabled, PolledEnd, Items;
  }

  lemma SweepEndsMoves(script: seq<Event>, m: Moment)
    requires m.at.AtForwards? && !m.c.sweeping.NotPolling? && !PollDue(m.c) && Enabled(m.c, SweepEnds)
    ensures Move(script, m) == Moment(AtPoll, Next(m.c, SweepEnds), m.es + [SweepEnds], m.next)
  {
    hide Next, Enabled, PollDue, PolledEnd, Items;
  }

  /** What the poll of an event loop comes to here. */
  predicate Outcome(script: seq<Event>, next: nat, leave: bool) {
    if next < |script| then script[next] == PollDone(leave) else leave
  }

  lemma PollDoneMoves(script: seq<Event>, m: Moment, leave: bool)
    requires (m.at.AtWait? || m.at.AtPoll?) && Outcome(script, m.next, leave) && Enabled(m.c, PollDone(leave))
    ensures var d := Next(m.c, PollDone(leave));
            Move(script, m) == Moment(LoopOf(d), d, m.es + [PollDone(leave)], Used(script, m.next))
  {
    hide Next, Enabled, LoopOf;
  }

  lemma InterruptMoves(script: seq<Event>, m: Moment)
    requires (m.at.AtWait? || m.at.AtPoll?) && m.next < |script|
    requires !IsCallback(script[m.next]) && !script[m.next].PollDone?
    ensures Move(script, m) == m.(at := Again(m.at), next := m.next + 1)
  {
    hide Next, Enabled;
  }

  // ---------------------------------------------------------------- the pairs that were there

  /** The pairs of c are the first ones of d, in their places; some may have been marked closed. */
  predicate Behind(c: Ctx, d: Ctx) {
    && |Items(c)| <= |Items(d)|
    && forall k :: 0 <= k < |Items(c)| ==>
         && Items(d)[k] == Items(c)[k].(closed := Items(d)[k].closed)
         && (Items(c)[k].closed ==> Items(d)[k].closed)
  }

  lemma BehindOn(c: Ctx, d: Ctx, e: Ctx)
    requires Behind(c, d) && Behind(d, e)
    ensures Behind(c, e)
  {
  }

  lemma SamePool(c: Ctx, d: Ctx)
    requires d.pool == c.pool
    ensures Behind(c, d)
  {
  }

  lemma ClosedBehind(c: Ctx, i: nat)
    requires i < |Items(c)|
    ensures Behind(c, MarkClosed(c, i))
  {
  }

  lemma MoreBehind(c: Ctx, d: Ctx)
    requires Items(d) == Items(c) || (Items(d) != [] && Items(d) == Items(c) + [Items(d)[|Items(d)| - 1]])
    ensures Behind(c, d)
  {
  }

  lemma CallbackBehind(c: Ctx, e: Event)
    requires HandleInv(c) && Enabled(c, e) && IsCallback(e)
    ensures Behind(c, Next(c, e))
  {
    hide Behind, Items, DoAuthPassword, DoNewChannel, DoDirectTcpip, DoForwardData, WriteTo, DoPty, DoShell, DoWindow,
         MarkClosed, PairsShaped;
    if e.AuthPassword? {
      AuthStep(c, e.outcome);
      SamePool(c, Next(c, e));
    } else if e.NewChannel? {
      NewChannelStep(c, e.trapNew, e.haasNew, e.openOk);
      SamePool(c, Next(c, e));
    } else if e.DirectTcpip? {
      DirectTcpipStep(c, e.dstNew, e.openOk, e.accepted, e.pairNew, e.reallocated);
      MoreBehind(c, Next(c, e));
    } else if e.ForwardClosed? {
      ClosedBehind(c, e.i);
    } else {
      QuietIsAside(c, e);
      SamePool(c, Next(c, e));
    }
  }

  lemma PollBehind(c: Ctx, eof: bool)
    requires Enabled(c, PollForward(eof))
    ensures Behind(c, DoPollForward(c, eof))
  {
    hide Behind, MarkClosed;
    var i := c.sweeping.i;
    var end := if c.sweeping.AtSource? then Items(c)[i].source else Items(c)[i].destiny;
    var c1 := UseIfSome(c, end);
    SamePool(c, c1);
    ClosedBehind(c1, i);
    BehindOn(c, c1, MarkClosed(c1, i));
    var c2 := if end.Some? && eof then MarkClosed(c1, i) else c1;
    SamePool(c2, DoPollForward(c, eof));
    BehindOn(c, c2, DoPollForward(c, eof));
  }

  /** Callbacks may come as long as they might before, whatever they do to the pool. */
  lemma StillHears(at: Point, c: Ctx, d: Ctx)
    requires Hears(at, c) && Behind(c, d) && d.sweeping == c.sweeping
    ensures Hears(at, d)
  {
  }
}
