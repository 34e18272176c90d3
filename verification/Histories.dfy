/**
 What the state says about the events that led to it, and what becomes of a forward, a login or a terminal
 request in the course of a run.
 */
module Histories {
  import opened Common
  import opened Ledger
  import opened Pool
  import opened Session
  import opened Handles
  import opened Growth
  import opened Scripts
  import opened TerminalProtocol
  import opened Effects
  import PairLedger

  lemma {:induction false} LegalUpTo(start: Ctx, es: seq<Event>, n: nat)
    requires Legal(start, es) && n <= |es|
    ensures Legal(start, es[..n])
    ensures n < |es| ==>
              Enabled(Run(start, es[..n]), es[n]) && Legal(start, es[..n + 1])
              && Run(start, es[..n + 1]) == Next(Run(start, es[..n]), es[n])
  {
    hide Enabled, Next;
    if n == |es| {
      assert es[..n] == es;
    } else {
      var before := es[..|es| - 1];
      if n < |before| {
        LegalUpTo(start, before, n);
        assert before[..n] == es[..n] && before[..n + 1] == es[..n + 1];
      } else {
        assert es[..n + 1] == es;
      }
    }
  }

  // ---------------------------------------------------------------- logins and closing

  /** The fields that only logins and the closing of a main channel touch. */
  predicate SameLogin(c: Ctx, d: Ctx) {
    && d.retries == c.retries && d.disconnected == c.disconnected
    && d.authenticated == c.authenticated && d.haasSession == c.haasSession && d.closed == c.closed
  }

  lemma TearDownLogin(c: Ctx)
    ensures SameLogin(c, TearDown(c))
  {
    hide DropPool, CloseSessions;
    DropPoolEmpties(c.(phase := Closing));
    CloseSessionsOnlyLogs(DropPool(c.(phase := Closing)));
  }

  lemma LeavingLogin(c: Ctx)
    ensures SameLogin(c, LeaveWait(c)) && SameLogin(c, LeaveRelay(c))
  {
    hide TearDown;
    TearDownLogin(Log(c, EventRemove(c.trapSession)));
    if c.haasSession.Some? {
      TearDownLogin(Log(Log(c, EventRemove(c.haasSession.value)), EventRemove(c.trapSession)));
    }
  }

  lemma CallbackLogin(c: Ctx, e: Event)
    requires HandleInv(c) && Enabled(c, e) && IsCallback(e) && !e.AuthPassword? && !e.MainClosed?
    ensures SameLogin(c, Next(c, e))
  {
    hide DoNewChannel, DoDirectTcpip, DoForwardData, WriteTo, DoPty, DoShell, DoWindow, MarkClosed, PairsShaped;
    if e.NewChannel? {
      NewChannelStep(c, e.trapNew, e.haasNew, e.openOk);
    } else if e.DirectTcpip? {
      DirectTcpipStep(c, e.dstNew, e.openOk, e.accepted, e.pairNew, e.reallocated);
    } else if e.ForwardClosed? {
      CloseDoes(c, e.i);
    } else if IsData(e) {
      DataStep(c, e);
    } else {
      TerminalOnly(c, if e.Window? then true else e.ok);
    }
  }

  lemma PollDoneLogin(c: Ctx, leave: bool)
    requires Enabled(c, PollDone(leave))
    ensures SameLogin(c, Next(c, PollDone(leave)))
  {
    hide LeaveWait, LeaveRelay;
    LeavingLogin(c);
  }

  lemma ForwardsLogin(c: Ctx, e: Event)
    requires Enabled(c, e) && (e.PollForward? || e.SweepEnds?)
    ensures SameLogin(c, Next(c, e))
  {
    hide ReleaseClosed, DoPollForward;
    if e.PollForward? {
      PollLogs(c, e.eof);
    } else {
      ReleaseClosedSweeps(c);
    }
  }

  lemma TopsLogin(c: Ctx, e: Event)
    requires Enabled(c, e) && (e.KexDone? || e.RelayTop? || e.SweepBegins?)
    ensures SameLogin(c, Next(c, e))
  {
    hide TearDown, UseIfSome;
    TearDownLogin(c);
    UseIsQuiet(c, c.trapChannel);
    UseIsQuiet(UseIfSome(c, c.trapChannel), c.haasChannel);
  }

  lemma LoopLogin(c: Ctx, e: Event)
    requires Enabled(c, e) && !IsCallback(e)
    ensures SameLogin(c, Next(c, e))
  {
    hide Next, Enabled, SameLogin;
    if e.PollForward? || e.SweepEnds? {
      ForwardsLogin(c, e);
    } else if e.PollDone? {
      PollDoneLogin(c, e.leave);
    } else {
      TopsLogin(c, e);
    }
  }

  lemma OthersKeepLogin(c: Ctx, e: Event)
    requires HandleInv(c) && Enabled(c, e) && !e.AuthPassword? && !e.MainClosed?
    ensures SameLogin(c, Next(c, e))
  {
    hide Next, SameLogin;
    if IsCallback(e) {
      CallbackLogin(c, e);
    } else {
      LoopLogin(c, e);
    }
  }

  /** How many logins have failed, at whatever stage. */
  function Failures(es: seq<Event>): nat {
    var m := multiset(es);
    m[AuthPassword(NoSession)] + m[AuthPassword(ConnectFails)] + m[AuthPassword(AuthFails)]
  }

  /** What LoginsCounted says of a state and the events that led to it. */
  predicate Counted(c: Ctx, es: seq<Event>) {
    && c.retries == Failures(es) && (c.disconnected <==> Failures(es) == 3) && Failures(es) <= 3
    && (c.authenticated <==> AuthPassword(AuthSucceeds) in es)
    && (c.closed <==> MainClosed in es)
  }

  lemma LoginCounted(c: Ctx, es: seq<Event>, outcome: AuthOutcome)
    requires Counted(c, es) && Enabled(c, AuthPassword(outcome))
    ensures Counted(Next(c, AuthPassword(outcome)), es + [AuthPassword(outcome)])
  {
    hide DoAuthPassword;
    var e := AuthPassword(outcome);
    LoginDoes(c, outcome);
    assert multiset(es + [e]) == multiset(es) + multiset{e};
    assert forall x :: x in es + [e] <==> x in es || x == e;
  }

  lemma ClosedCounted(c: Ctx, es: seq<Event>)
    requires Counted(c, es) && Enabled(c, MainClosed)
    ensures Counted(Next(c, MainClosed), es + [MainClosed])
  {
    hide Next;
    ClosedDoes(c);
    assert multiset(es + [MainClosed]) == multiset(es) + multiset{MainClosed};
    assert forall x :: x in es + [MainClosed] <==> x in es || x == MainClosed;
  }

  lemma OthersCounted(c: Ctx, d: Ctx, es: seq<Event>, e: Event)
    requires Counted(c, es) && SameLogin(c, d) && !e.AuthPassword? && !e.MainClosed?
    ensures Counted(d, es + [e])
  {
    assert multiset(es + [e]) == multiset(es) + multiset{e};
    assert forall x :: x in es + [e] <==> x in es || x == e;
  }

  /**
   Over every run: `retries` is the number of failed logins, and the client is cut off exactly from the
   third on; it is authenticated exactly if a login succeeded; and `closed` is set exactly if a main channel
   was closed.
   */
  lemma {:induction false} LoginsCounted(mode: Mode, poolNew: bool, start: Ctx, es: seq<Event>)
    requires start == Start(mode, poolNew) && Legal(start, es)
    ensures var c := Run(start, es);
            && c.retries == Failures(es) && (c.disconnected <==> Failures(es) == 3) && Failures(es) <= 3
            && (c.authenticated <==> AuthPassword(AuthSucceeds) in es)
            && (c.closed <==> MainClosed in es)
  {
    hide HandleInv, Next, Enabled, Failures;
    LoginsCountedRun(mode, poolNew, start, es);
  }

  lemma {:induction false} LoginsCountedRun(mode: Mode, poolNew: bool, start: Ctx, es: seq<Event>)
    requires start == Start(mode, poolNew) && Legal(start, es)
    ensures Counted(Run(start, es), es)
  {
    hide HandleInv, Next, Enabled, Counted, SameLogin;
    if es == [] {
      NothingYet(mode, poolNew);
    } else {
      var before, e := es[..|es| - 1], es[|es| - 1];
      LoginsCountedRun(mode, poolNew, start, before);
      HandleInvRun(mode, poolNew, before);
      var c := Run(start, before);
      assert es == before + [e];
      CallbackEnabled(c, e);
      if e.AuthPassword? {
        LoginCounted(c, before, e.outcome);
      } else if e.MainClosed? {
        ClosedCounted(c, before);
      } else {
        OthersKeepLogin(c, e);
        OthersCounted(c, Next(c, e), before, e);
      }
    }
  }

  lemma CallbackEnabled(c: Ctx, e: Event)
    requires Enabled(c, e)
    ensures c.phase != Done && (IsCallback(e) ==> !c.disconnected)
  {
  }

  lemma NothingYet(mode: Mode, poolNew: bool)
    ensures Counted(Start(mode, poolNew), [])
  {
  }

  /** After the third failed login no callback comes any more. */
  lemma {:induction false} ThirdFailureCutsOff(mode: Mode, poolNew: bool, start: Ctx, es: seq<Event>, k: nat)
    requires start == Start(mode, poolNew) && Legal(start, es) && k < |es| && Failures(es[..k]) == 3
    ensures !IsCallback(es[k])
  {
    hide Legal, Run, Enabled, Failures;
    LegalUpTo(start, es, k);
    LoginsCounted(mode, poolNew, start, es[..k]);
    CallbackEnabled(Run(start, es[..k]), es[k]);
  }

  /**
   When the event loop's poll is over, in a session that has not ended: it ends if the poll said leave or a
   main channel was closed at any time before, and in no other case; a client in the first loop whose channel
   is open and who has logged in goes on to the relay loop, with the HaaS session added to the event loop.
   */
  lemma {:induction false} PollOutcomes(mode: Mode, poolNew: bool, start: Ctx, es: seq<Event>, leave: bool)
    requires start == Start(mode, poolNew) && Legal(start, es)
    requires var c := Run(start, es); (c.phase == Wait || c.phase == Relay) && c.sweeping.NotPolling?
    ensures Enabled(Run(start, es), PollDone(leave))
    ensures var c := Run(start, es);
            var d := Next(c, PollDone(leave));
            && (d.phase == Done <==> leave || MainClosed in es)
            && (!leave && MainClosed !in es ==>
                  if c.phase == Wait && c.trapChannel.Some? && AuthPassword(AuthSucceeds) in es then
                    c.haasSession.Some? && d == c.(phase := Relay, log := c.log + [EventAdd(c.haasSession.value)])
                  else d == c)
  {
    hide Legal, Run, Next, Start;
    var c := Run(start, es);
    LoginsCounted(mode, poolNew, start, es);
    HandleInvRun(mode, poolNew, es);
    PollDoneDoes(c, leave);
  }

  /** Every turn of the relay loop polls both main channels, the client's first. */
  lemma {:induction false} TurnsPollBoth(mode: Mode, poolNew: bool, start: Ctx, es: seq<Event>)
    requires start == Start(mode, poolNew) && Legal(start, es)
    requires Run(start, es).phase == Relay && Run(start, es).sweeping.NotPolling?
    ensures Enabled(Run(start, es), RelayTop)
    ensures var c := Run(start, es);
            && c.trapChannel.Some? && c.haasChannel.Some?
            && Next(c, RelayTop)
               == c.(log := c.log + [ChannelUse(c.trapChannel.value), ChannelUse(c.haasChannel.value)])
  {
    hide Legal, Run, Next, Start;
    HandleInvRun(mode, poolNew, es);
    TurnPolls(Run(start, es));
  }

  // ---------------------------------------------------------------- terminal requests

  lemma {:induction false} GrantsInLog(log: seq<Op>)
    ensures Ptys(log) > 0 <==> exists h :: PtyRequest(h, true) in log
    ensures Shells(log) > 0 <==> exists h :: ShellRequest(h, true) in log
  {
    if log != [] {
      var init, op := log[..|log| - 1], log[|log| - 1];
      GrantsInLog(init);
      assert log == init + [op];
      forall x | x in init
        ensures x in log
      {
      }
      if PtyGranted(op) {
        assert PtyRequest(op.c, true) in log;
      }
      if ShellGranted(op) {
        assert ShellRequest(op.c, true) in log;
      }
    }
  }

  lemma {:induction false} TerminalState(mode: Mode, poolNew: bool, start: Ctx, es: seq<Event>)
    requires start == Start(mode, poolNew) && Legal(start, es) && Run(start, es).phase != Done
    ensures var c := Run(start, es);
            && (c.havePty <==> exists h :: PtyRequest(h, true) in c.log)
            && (c.haveShell <==> exists h :: ShellRequest(h, true) in c.log)
            && (c.trapChannel.Some? ==> c.haasChannel.Some?)
  {
    hide Legal, Run, Ptys, Shells, InTurn, Start;
    TerminalInvRun(mode, poolNew, es);
    GrantsInLog(Run(start, es).log);
    HandleInvRun(mode, poolNew, es);
  }

  lemma RequestDoes(c: Ctx, ok: bool)
    requires c.haasChannel.Some?
    ensures var h := c.haasChannel.value;
            && DoPty(c, ok) == (if c.havePty then c else c.(log := c.log + [PtyRequest(h, ok)], havePty := ok))
            && DoShell(c, ok) == (if c.haveShell then c else c.(log := c.log + [ShellRequest(h, ok)], haveShell := ok))
            && DoWindow(c) == (if c.havePty then c.(log := c.log + [WindowChange(h)]) else c)
  {
  }

  /**
   Over every run: a pty request of the client goes to the HaaS channel, as one request and nothing else,
   unless one was granted before; then nothing is called.  The flag that answers the client says whether one
   has been granted by now.
   */
  lemma {:induction false} PtyGoesUp(mode: Mode, poolNew: bool, start: Ctx, es: seq<Event>, ok: bool)
    requires start == Start(mode, poolNew) && Legal(start, es)
    requires Hearing(Run(start, es)) && Run(start, es).trapChannel.Some?
    ensures Enabled(Run(start, es), Pty(ok))
    ensures var c := Run(start, es);
            var d := Next(c, Pty(ok));
            && c.haasChannel.Some?
            && if exists h :: PtyRequest(h, true) in c.log then d == c && d.havePty
               else d == c.(log := c.log + [PtyRequest(c.haasChannel.value, ok)], havePty := ok)
  {
    hide Legal, Run, DoPty, Start;
    var c := Run(start, es);
    CallbackEnabled(c, Pty(ok));
    TerminalState(mode, poolNew, start, es);
    RequestDoes(c, ok);
  }

  /** The same for a shell. */
  lemma {:induction false} ShellGoesUp(mode: Mode, poolNew: bool, start: Ctx, es: seq<Event>, ok: bool)
    requires start == Start(mode, poolNew) && Legal(start, es)
    requires Hearing(Run(start, es)) && Run(start, es).trapChannel.Some?
    ensures Enabled(Run(start, es), Shell(ok))
    ensures var c := Run(start, es);
            var d := Next(c, Shell(ok));
            && c.haasChannel.Some?
            && if exists h :: ShellRequest(h, true) in c.log then d == c && d.haveShell
               else d == c.(log := c.log + [ShellRequest(c.haasChannel.value, ok)], haveShell := ok)
  {
    hide Legal, Run, DoShell, Start;
    var c := Run(start, es);
    CallbackEnabled(c, Shell(ok));
    TerminalState(mode, poolNew, start, es);
    RequestDoes(c, ok);
  }

  /** A window change goes up, as one call, exactly if a pty has been granted. */
  lemma {:induction false} WindowGoesUp(mode: Mode, poolNew: bool, start: Ctx, es: seq<Event>, ok: bool)
    requires start == Start(mode, poolNew) && Legal(start, es)
    requires Hearing(Run(start, es)) && Run(start, es).trapChannel.Some?
    ensures Enabled(Run(start, es), Window(ok))
    ensures var c := Run(start, es);
            var d := Next(c, Window(ok));
            && c.haasChannel.Some?
            && if exists h :: PtyRequest(h, true) in c.log then
                 d == c.(log := c.log + [WindowChange(c.haasChannel.value)])
               else d == c
  {
    hide Legal, Run, DoWindow, Start;
    var c := Run(start, es);
    CallbackEnabled(c, Window(ok));
    TerminalState(mode, poolNew, start, es);
    RequestDoes(c, ok);
  }

  // ---------------------------------------------------------------- a forward that closes

  /** The event closes the pooled pair p: its close callback comes, or a poll of one of its ends gives SSH_EOF. */
  predicate Closes(c: Ctx, e: Event, p: Pair)
    requires Enabled(c, e)
  {
    match e
    case ForwardClosed(i) => Items(c)[i] == p
    case PollForward(eof) =>
      eof && Items(c)[c.sweeping.i] == p && (if c.sweeping.AtSource? then p.source.Some? else p.destiny.Some?)
    case _ => false
  }

  /** A pair of this id is in the pool, and closed. */
  predicate Doomed(c: Ctx, id: Handle) { exists i :: 0 <= i < |Items(c)| && Items(c)[i].id == id && Items(c)[i].closed }

  lemma ClosesDooms(c: Ctx, e: Event, p: Pair)
    requires Enabled(c, e) && Closes(c, e, p)
    ensures Doomed(Next(c, e), p.id) && Next(c, e).phase == c.phase
  {
    hide MarkClosed, DoPollForward, Items;
    if e.ForwardClosed? {
      CloseDoes(c, e.i);
      assert Items(Next(c, e))[e.i].closed;
    } else {
      PollDoes(c, e.eof);
      assert Items(Next(c, e))[c.sweeping.i].closed;
    }
  }

  lemma BehindDoomed(c: Ctx, d: Ctx, id: Handle)
    requires Doomed(c, id) && Behind(c, d)
    ensures Doomed(d, id)
  {
    var i :| 0 <= i < |Items(c)| && Items(c)[i].id == id && Items(c)[i].closed;
    assert Items(d)[i].id == id && Items(d)[i].closed;
  }

  /** Between two sweeps nobody opens a pair again or takes it out. */
  lemma StaysDoomed(c: Ctx, e: Event, id: Handle)
    requires HandleInv(c) && Enabled(c, e) && !e.SweepEnds? && Next(c, e).phase != Done && Doomed(c, id)
    ensures Doomed(Next(c, e), id)
  {
    hide Behind, Doomed, Next, Enabled, HandleInv;
    var d := Next(c, e);
    if IsCallback(e) {
      CallbackBehind(c, e);
    } else {
      LoopBehind(c, e);
    }
    BehindDoomed(c, d, id);
  }

  lemma LoopBehind(c: Ctx, e: Event)
    requires Enabled(c, e) && !IsCallback(e) && !e.SweepEnds? && Next(c, e).phase != Done
    ensures Behind(c, Next(c, e))
  {
    hide Behind, TearDown, LeaveWait, LeaveRelay, DoPollForward;
    if e.PollForward? {
      PollBehind(c, e.eof);
    } else {
      LeavingIsDone(c);
      SamePool(c, Next(c, e));
    }
  }

  lemma GrowsKeeps(x: seq<Op>, y: seq<Op>, s: Option<Handle>, kind: Kind, op: Op)
    requires Grows(x, y, s, kind) && op in x
    ensures op in y
  {
    var k :| 0 <= k < |x| && x[k] == op;
    assert y[k] == op;
  }

  lemma NoForeign(items: seq<Pair>)
    ensures AllClear(items, None)
  {
  }

  /** The release loop frees every closed pair. */
  lemma {:induction false} ClosedAreFreed(c: Ctx, i: nat)
    requires i < |Items(c)| && Items(c)[i].closed
    ensures PairFree(Items(c)[i].id) in ReleaseClosed(c).log
    decreases |Items(c)|
  {
    hide ReleasePair, Grows;
    var f := FindClosed(Items(c));
    var p, q := Items(c)[i], Items(c)[f.value];
    var c1 := c.(pool := c.pool.(items := SwapRemove(c.pool.items, f.value)));
    var c2 := ReleasePair(c1, q);
    ReleasePairOnlyLogs(c1, q);
    if p == q {
      ReleaseDoes(c1, q);
      assert c2.log[|c2.log| - 1] == PairFree(q.id);
      NoForeign(Items(c2));
      ReleaseClosedGrows(c2, None);
      GrowsKeeps(c2.log, ReleaseClosed(c2).log, None, Plumbing, PairFree(p.id));
    } else {
      SwapRemoveMultiset(Items(c), f.value);
      assert p in multiset(Items(c2));
      var k :| 0 <= k < |Items(c2)| && Items(c2)[k] == p;
      ClosedAreFreed(c2, k);
    }
  }

  lemma SweepFrees(c: Ctx, id: Handle)
    requires Enabled(c, SweepEnds) && Doomed(c, id)
    ensures PairFree(id) in Next(c, SweepEnds).log
  {
    hide ReleaseClosed;
    var i :| 0 <= i < |Items(c)| && Items(c)[i].id == id && Items(c)[i].closed;
    ClosedAreFreed(c, i);
  }

  lemma StaysFreed(c: Ctx, e: Event, id: Handle)
    requires Enabled(c, e) && PairFree(id) in c.log
    ensures PairFree(id) in Next(c, e).log
  {
    hide Next, Enabled, Foreign, Grows;
    NothingForeign(c);
    NextGrows(c, e, None);
    GrowsKeeps(c.log, Next(c, e).log, None, KindOf(e), PairFree(id));
  }

  /** Whether a sweep ends among the events from n on. */
  predicate SweptSince(es: seq<Event>, n: nat) { exists k :: n < k < |es| && es[k] == SweepEnds }

  /** From the moment it closes a pair is doomed, and once a sweep has ended it has been freed. */
  lemma {:induction false} DoomedOrFreed(mode: Mode, poolNew: bool, start: Ctx, es: seq<Event>, n: nat, p: Pair)
    requires start == Start(mode, poolNew) && Legal(start, es) && n < |es|
    requires Legal(start, es[..n]) && Enabled(Run(start, es[..n]), es[n]) && Closes(Run(start, es[..n]), es[n], p)
    ensures var c := Run(start, es);
            if SweptSince(es, n) then PairFree(p.id) in c.log else c.phase != Done ==> Doomed(c, p.id)
  {
    hide HandleInv, Next, Enabled, Start, Doomed, Closes, Items;
    var before, e := es[..|es| - 1], es[|es| - 1];
    var c := Run(start, before);
    if n == |es| - 1 {
      assert es[..n] == before;
      ClosesDooms(c, e, p);
    } else {
      assert before[..n] == es[..n];
      DoomedOrFreed(mode, poolNew, start, before, n, p);
      HandleInvRun(mode, poolNew, before);
      CallbackEnabled(c, e);
      if SweptSince(before, n) {
        StaysFreed(c, e, p.id);
        StillSwept(before, e, n);
      } else if e.SweepEnds? {
        SweepFrees(c, p.id);
        assert es[|es| - 1] == SweepEnds;
      } else {
        NotYetSwept(before, e, n);
        if Next(c, e).phase != Done {
          StaysDoomed(c, e, p.id);
        }
      }
    }
  }

  lemma StillSwept(before: seq<Event>, e: Event, n: nat)
    requires SweptSince(before, n)
    ensures SweptSince(before + [e], n)
  {
    var k :| n < k < |before| && before[k] == SweepEnds;
    assert (before + [e])[k] == SweepEnds;
  }

  lemma NotYetSwept(before: seq<Event>, e: Event, n: nat)
    requires !SweptSince(before, n) && !e.SweepEnds?
    ensures !SweptSince(before + [e], n)
  {
    forall k | n < k < |before + [e]|
      ensures (before + [e])[k] != SweepEnds
    {
      if k < |before| {
        assert before[k] != SweepEnds;
      }
    }
  }

  /**
   A forward that closes is released: after its close callback, or a poll of one of its ends that gave
   SSH_EOF, the next sweep frees its pair, and from then on no pair of this id is in the pool.
   */
  lemma {:induction false} ClosedIsReleased(mode: Mode, poolNew: bool, start: Ctx, es: seq<Event>, n: nat, p: Pair)
    requires start == Start(mode, poolNew) && Legal(start, es) && n < |es| && SweptSince(es, n)
    requires Legal(start, es[..n]) && Enabled(Run(start, es[..n]), es[n]) && Closes(Run(start, es[..n]), es[n], p)
    ensures var c := Run(start, es);
            PairFree(p.id) in c.log && forall q :: q in Items(c) ==> q.id != p.id
  {
    hide Run, Legal, Enabled, Closes, Start, Doomed;
    DoomedOrFreed(mode, poolNew, start, es, n, p);
    PairLedger.PairCount(mode, poolNew, start, es, p.id);
    NotPooled(Items(Run(start, es)), p.id);
  }

  lemma {:induction false} NotPooled(items: seq<Pair>, id: Handle)
    requires PairLedger.Pooled(items, id) == 0
    ensures forall q :: q in items ==> q.id != id
  {
    if items != [] {
      NotPooled(items[..|items| - 1], id);
      assert forall q :: q in items ==> q in items[..|items| - 1] || q == items[|items| - 1];
    }
  }

  // ---------------------------------------------------------------- every turn of the relay loop

  /** i is the latest top of a turn. */
  predicate LatestTop(es: seq<Event>, i: nat) {
    i < |es| && es[i] == RelayTop && forall k :: i < k < |es| ==> es[k] != RelayTop
  }

  /** What followed the top of the turn: a whole sweep, begun at once, unless there was nothing in the pool. */
  ghost predicate ServedFrom(start: Ctx, es: seq<Event>, i: nat) {
    && LatestTop(es, i) && Legal(start, es[..i + 1])
    && (|| Items(Run(start, es[..i + 1])) == []
        || (i + 1 < |es| && es[i + 1] == SweepBegins && SweptSince(es, i + 1)))
  }

  ghost predicate TurnServed(start: Ctx, es: seq<Event>) { exists i: nat :: ServedFrom(start, es, i) }

  /** The turn is in HandleForwards: at its beginning, or in a sweep. */
  ghost predicate Serving(c: Ctx, es: seq<Event>) {
    exists i: nat ::
      && LatestTop(es, i)
      && if c.sweeping.NotPolling? then i == |es| - 1 else i + 1 < |es| && es[i + 1] == SweepBegins
  }

  /** No turn was left, and no other begun, before it was served. */
  ghost predicate AllServed(start: Ctx, es: seq<Event>) {
    forall k :: 0 <= k < |es| && Legal(start, es[..k]) && Run(start, es[..k]).phase == Relay
                && (es[k].PollDone? || (es[k] == RelayTop && RelayTop in es[..k])) ==>
                  TurnServed(start, es[..k])
  }

  ghost predicate TurnInv(start: Ctx, m: Moment) {
    && m.c.phase == (match m.at case AtKex => Kex case AtWait => Wait case AtEnd => Done case _ => Relay)
    && (m.c.sweeping.NotPolling? || m.at.AtForwards? || m.at.AtEnd?)
    && AllServed(start, m.es)
    && match m.at
       case AtKex | AtWait => RelayTop !in m.es
       case AtTop => RelayTop !in m.es || TurnServed(start, m.es)
       case AtForwards => Serving(m.c, m.es)
       case AtPoll => TurnServed(start, m.es)
       case AtEnd => true
  }

  lemma ServedOn(start: Ctx, es: seq<Event>, e: Event)
    requires TurnServed(start, es) && e != RelayTop
    ensures TurnServed(start, es + [e])
  {
    hide Legal, Run;
    var i: nat :| ServedFrom(start, es, i);
    assert (es + [e])[..i + 1] == es[..i + 1];
    if SweptSince(es, i + 1) {
      StillSwept(es, e, i + 1);
    }
    assert ServedFrom(start, es + [e], i);
  }

  lemma ServingOn(c: Ctx, d: Ctx, es: seq<Event>, e: Event)
    requires Serving(c, es) && e != RelayTop && !c.sweeping.NotPolling? && !d.sweeping.NotPolling?
    ensures Serving(d, es + [e])
  {
    var i: nat :| LatestTop(es, i) && i + 1 < |es| && es[i + 1] == SweepBegins;
    assert LatestTop(es + [e], i);
  }

  lemma AllServedOn(start: Ctx, es: seq<Event>, e: Event)
    requires AllServed(start, es)
    requires Legal(start, es) && Run(start, es).phase == Relay && (e.PollDone? || (e == RelayTop && RelayTop in es)) ==>
               TurnServed(start, es)
    ensures AllServed(start, es + [e])
  {
    hide Legal, Run, TurnServed;
    forall k | 0 <= k < |es + [e]| && Legal(start, (es + [e])[..k]) && Run(start, (es + [e])[..k]).phase == Relay
               && ((es + [e])[k].PollDone? || ((es + [e])[k] == RelayTop && RelayTop in (es + [e])[..k]))
      ensures TurnServed(start, (es + [e])[..k])
    {
      assert (es + [e])[..k] == es[..k];
      if k == |es| {
        assert es[..k] == es;
      }
    }
  }

  lemma CallbackTurn(start: Ctx, m: Moment, e: Event, next: nat)
    requires TurnInv(start, m) && HandleInv(m.c) && Enabled(m.c, e) && IsCallback(e) && Hears(m.at, m.c)
    ensures TurnInv(start, Do(m, e, m.at, next))
  {
    hide AllServed, TurnServed, Serving, Next, Enabled, HandleInv, Legal, Run, PolledEnd;
    CallbackStep(m.c, e);
    AllServedOn(start, m.es, e);
    if m.at.AtForwards? {
      ServingOn(m.c, Next(m.c, e), m.es, e);
    } else if m.at.AtPoll? || (m.at.AtTop? && RelayTop in m.es) {
      ServedOn(start, m.es, e);
    }
  }

  lemma KexTurn(start: Ctx, m: Moment, ok: bool, next: nat)
    requires TurnInv(start, m) && m.at.AtKex?
    ensures TurnInv(start, Do(m, KexDone(ok), if ok then AtWait else AtEnd, next))
  {
    hide AllServed, TurnServed, Serving, Next, Legal, Run;
    if Enabled(m.c, KexDone(ok)) {
      KexDoes(m.c, ok);
      AllServedOn(start, m.es, KexDone(ok));
    }
  }

  lemma TopTurn(start: Ctx, m: Moment, next: nat)
    requires TurnInv(start, m) && m.at.AtTop? && Legal(start, m.es) && m.c == Run(start, m.es)
    ensures TurnInv(start, Do(m, RelayTop, AtForwards, next))
  {
    hide AllServed, TurnServed, Legal, Run, UseIfSome;
    if Enabled(m.c, RelayTop) {
      AllServedOn(start, m.es, RelayTop);
      UseIsQuiet(m.c, m.c.trapChannel);
      UseIsQuiet(UseIfSome(m.c, m.c.trapChannel), m.c.haasChannel);
      assert LatestTop(m.es + [RelayTop], |m.es|);
    }
  }

  lemma UseIsQuiet(c: Ctx, h: Option<Handle>)
    ensures UseIfSome(c, h).phase == c.phase && UseIfSome(c, h).sweeping == c.sweeping && SameLogin(c, UseIfSome(c, h))
  {
  }

  lemma NothingToServe(start: Ctx, m: Moment)
    requires TurnInv(start, m) && m.at.AtForwards? && m.c.sweeping.NotPolling? && Items(m.c) == []
    requires Legal(start, m.es) && m.c == Run(start, m.es)
    ensures TurnInv(start, m.(at := AtPoll))
  {
    hide AllServed, Legal, Run;
    var i: nat :| LatestTop(m.es, i) && i == |m.es| - 1;
    assert m.es[..i + 1] == m.es;
    assert ServedFrom(start, m.es, i);
  }

  lemma BeginTurn(start: Ctx, m: Moment, next: nat)
    requires TurnInv(start, m) && m.at.AtForwards? && m.c.sweeping.NotPolling? && Legal(start, m.es)
    ensures TurnInv(start, Do(m, SweepBegins, AtForwards, next))
  {
    hide AllServed, Legal, Run, Items;
    if Enabled(m.c, SweepBegins) {
      AllServedOn(start, m.es, SweepBegins);
      SweepBeginsDoes(m.c);
      var i: nat :| LatestTop(m.es, i) && i == |m.es| - 1;
      assert LatestTop(m.es + [SweepBegins], i);
    }
  }

  lemma PollTurn(start: Ctx, m: Moment, eof: bool, next: nat)
    requires TurnInv(start, m) && m.at.AtForwards? && !m.c.sweeping.NotPolling?
    ensures TurnInv(start, Do(m, PollForward(eof), AtForwards, next))
  {
    hide AllServed, Serving, Next, Legal, Run, Items;
    if Enabled(m.c, PollForward(eof)) {
      AllServedOn(start, m.es, PollForward(eof));
      PollDoes(m.c, eof);
      ServingOn(m.c, Next(m.c, PollForward(eof)), m.es, PollForward(eof));
    }
  }

  lemma SweptTurn(start: Ctx, m: Moment, next: nat)
    requires TurnInv(start, m) && m.at.AtForwards? && !m.c.sweeping.NotPolling?
    requires Legal(start, m.es) && m.c == Run(start, m.es)
    ensures TurnInv(start, Do(m, SweepEnds, AtPoll, next))
  {
    hide AllServed, Legal, Run, Items, ReleaseClosed, Enabled;
    if Enabled(m.c, SweepEnds) {
      AllServedOn(start, m.es, SweepEnds);
      ReleaseClosedSweeps(m.c);
      var i: nat :| LatestTop(m.es, i) && i + 1 < |m.es| && m.es[i + 1] == SweepBegins;
      LegalUpTo(start, m.es, i + 1);
      var es := m.es + [SweepEnds];
      assert es[..i + 1] == m.es[..i + 1] && es[|m.es|] == SweepEnds;
      assert ServedFrom(start, es, i);
    }
  }

  lemma PollDoneTurn(start: Ctx, m: Moment, leave: bool, next: nat)
    requires TurnInv(start, m) && (m.at.AtWait? || m.at.AtPoll?) && HandleInv(m.c)
    requires Legal(start, m.es) && m.c == Run(start, m.es)
    ensures TurnInv(start, PollEnds(m, leave, next))
  {
    hide AllServed, TurnServed, Next, Legal, Run, Serving, HandleInv;
    if Enabled(m.c, PollDone(leave)) {
      AllServedOn(start, m.es, PollDone(leave));
      ChannelsNow(m.c);
      PollDoneDoes(m.c, leave);
      if m.at.AtPoll? {
        ServedOn(start, m.es, PollDone(leave));
      }
    }
  }

  lemma ChannelsNow(c: Ctx)
    requires HandleInv(c)
    ensures ChannelsPaired(c)
  {
  }

  lemma ActTurn(start: Ctx, script: seq<Event>, m: Moment)
    requires TurnInv(start, m) && HandleInv(m.c) && Legal(start, m.es) && m.c == Run(start, m.es)
    ensures TurnInv(start, Act(script, m))
  {
    hide TurnInv, HandleInv, Legal, Run, Do, PollEnds, Items, PollDue, PolledEnd;
    match m.at
    case AtEnd =>
    case AtKex =>
      var ok := m.next < |script| && script[m.next] == KexDone(true);
      KexTurn(start, m, ok, Used(script, m.next));
    case AtWait | AtPoll =>
      if m.next >= |script| {
        PollDoneTurn(start, m, true, m.next);
      } else if script[m.next].PollDone? {
        PollDoneTurn(start, m, script[m.next].leave, m.next + 1);
      } else {
        AgainTurn(start, m, m.next + 1);
      }
    case AtTop =>
      TopTurn(start, m, m.next);
    case AtForwards =>
      if m.c.sweeping.NotPolling? {
        if Items(m.c) == [] {
          NothingToServe(start, m);
        } else {
          BeginTurn(start, m, m.next);
        }
      } else if !PollDue(m.c) {
        SweptTurn(start, m, m.next);
      } else if PolledEnd(m.c).Some? && m.next < |script| && script[m.next].PollForward? {
        PollTurn(start, m, script[m.next].eof, m.next + 1);
      } else {
        PollTurn(start, m, false, m.next);
      }
  }

  lemma AgainTurn(start: Ctx, m: Moment, next: nat)
    requires TurnInv(start, m) && (m.at.AtWait? || m.at.AtPoll?)
    ensures TurnInv(start, m.(at := Again(m.at), next := next))
  {
    hide AllServed, TurnServed;
  }

  lemma {:induction false} TurnInvMoves(mode: Mode, poolNew: bool, script: seq<Event>, n: nat)
    ensures TurnInv(Start(mode, poolNew), Moves(script, Start(mode, poolNew), n))
  {
    hide TurnInv, Legal, Run, Act, Start, HandleInv, Enabled, Hears;
    var start := Start(mode, poolNew);
    if n == 0 {
      FirstTurn(mode, poolNew);
    } else {
      var m := Moves(script, start, n - 1);
      TurnInvMoves(mode, poolNew, script, n - 1);
      MovesAreRun(script, start, n - 1);
      HandleInvRun(mode, poolNew, m.es);
      EndIsDone(start, m);
      if m.at.AtEnd? {
        EndMoves(script, m);
      } else if CallbackNext(script, m) {
        if Enabled(m.c, script[m.next]) {
          CallbackTurn(start, m, script[m.next], m.next + 1);
        } else {
          NextAside(start, m, m.next + 1);
        }
      } else {
        ActTurn(start, script, m);
      }
    }
  }

  lemma EndIsDone(start: Ctx, m: Moment)
    requires TurnInv(start, m)
    ensures m.at.AtEnd? <==> m.c.phase == Done
  {
    hide AllServed, TurnServed, Serving;
  }

  lemma NextAside(start: Ctx, m: Moment, next: nat)
    requires TurnInv(start, m)
    ensures TurnInv(start, m.(next := next))
  {
    hide AllServed, TurnServed, Serving;
  }

  lemma FirstTurn(mode: Mode, poolNew: bool)
    ensures TurnInv(Start(mode, poolNew), First(Start(mode, poolNew)))
  {
  }

  /**
   On every script: a turn of the relay loop is neither left by its poll nor followed by another turn before
   it is served - before, if there is anything in the pool, a whole sweep has begun right after the channels
   were polled, and has ended.
   */
  lemma {:induction false} EveryTurnServes(mode: Mode, poolNew: bool, start: Ctx, script: seq<Event>, m: Moment)
    requires start == Start(mode, poolNew) && Reached(start, script, m)
    ensures Legal(start, m.es) && AllServed(start, m.es)
  {
    hide AllServed, TurnServed, Serving, Legal, Run, Start, Moves;
    var n: nat :| Moves(script, start, n) == m;
    TurnInvMoves(mode, poolNew, script, n);
    MovesAreRun(script, start, n);
  }

  // ---------------------------------------------------------------- what becomes of a stimulus

  /**
   From d to e stimulus k is taken up.  A callback happens if it can, and changes nothing otherwise; in the key
   exchange anything else is its outcome; in a poll of the event loop an outcome is acted on and anything else
   is SSH_EINTR; and in the poll of a forward's end only what that poll gives is taken.
   */
  predicate TakenUp(script: seq<Event>, k: nat, d: Moment, e: Moment)
    requires k < |script|
  {
    var s := script[k];
    && d.next == k && e.next == k + 1
    && if IsCallback(s) then if Enabled(d.c, s) then Happens(d, s, e) && e.at == d.at else e == d.(next := k + 1)
       else match d.at
            case AtKex => Happens(d, KexDone(s == KexDone(true)), e)
            case AtWait | AtPoll => if s.PollDone? then Happens(d, s, e) else e.c == d.c && e.es == d.es
            case AtForwards => s.PollForward? && Happens(d, s, e)
            case _ => false
  }

  predicate Happens(d: Moment, e: Event, after: Moment) {
    Enabled(d.c, e) && after.c == Next(d.c, e) && after.es == d.es + [e]
  }

  lemma DoHappens(m: Moment, e: Event, at: Point, next: nat)
    requires Enabled(m.c, e)
    ensures Happens(m, e, Do(m, e, at, next)) && Do(m, e, at, next).at == at && Do(m, e, at, next).next == next
  {
    hide Enabled, Next;
  }

  /** The steps of the loops can be taken where the machine takes them. */
  lemma LoopEnabled(start: Ctx, m: Moment)
    requires TurnInv(start, m)
    ensures m.at.AtKex? ==> forall ok :: Enabled(m.c, KexDone(ok))
    ensures m.at.AtWait? || m.at.AtPoll? ==> forall leave :: Enabled(m.c, PollDone(leave))
    ensures m.at.AtForwards? && PollDue(m.c) ==> forall eof :: Enabled(m.c, PollForward(eof))
  {
    hide AllServed, TurnServed, Serving;
  }

  lemma MoveTakes(start: Ctx, script: seq<Event>, m: Moment)
    requires TurnInv(start, m)
    ensures var d := Move(script, m);
            d.next == m.next || (d.next == m.next + 1 && m.next < |script| && TakenUp(script, m.next, m, d))
  {
    hide TurnInv, Next, Enabled, Hears, Items, PolledEnd, LoopOf, Happens;
    LoopEnabled(start, m);
    if CallbackNext(script, m) {
      if Enabled(m.c, script[m.next]) {
        DoHappens(m, script[m.next], m.at, m.next + 1);
      }
    } else {
      ActTakes(start, script, m);
    }
  }

  lemma ActTakes(start: Ctx, script: seq<Event>, m: Moment)
    requires TurnInv(start, m) && !CallbackNext(script, m)
    ensures var d := Act(script, m);
            d.next == m.next || (d.next == m.next + 1 && m.next < |script| && TakenUp(script, m.next, m, d))
  {
    hide TurnInv, Next, Enabled, Items, PolledEnd, LoopOf, Happens;
    LoopEnabled(start, m);
    if m.next < |script| {
      var s := script[m.next];
      match m.at
      case AtKex =>
        var ok := s == KexDone(true);
        DoHappens(m, KexDone(ok), if ok then AtWait else AtEnd, m.next + 1);
      case AtWait | AtPoll =>
        if s.PollDone? {
          DoHappens(m, s, LoopOf(Next(m.c, s)), m.next + 1);
        }
      case AtForwards =>
        if PollDue(m.c) && s.PollForward? {
          DoHappens(m, s, AtForwards, m.next + 1);
        }
      case _ =>
    }
  }

  lemma {:induction false} MovesExtend(script: seq<Event>, start: Ctx, j: nat, n: nat)
    requires j <= n
    ensures Moves(script, start, j).es <= Moves(script, start, n).es
    decreases n
  {
    hide Move;
    if j < n {
      MovesExtend(script, start, j, n - 1);
      OneEvent(script, Moves(script, start, n - 1));
    }
  }

  /** The move that took stimulus k. */
  lemma {:induction false} TakenAt(mode: Mode, poolNew: bool, start: Ctx, script: seq<Event>, n: nat, k: nat)
    returns (j: nat)
    requires start == Start(mode, poolNew) && k < |script| && k < Moves(script, start, n).next
    ensures j < n && TakenUp(script, k, Moves(script, start, j), Moves(script, start, j + 1))
  {
    hide Move, TakenUp, TurnInv, Start;
    var m := Moves(script, start, n - 1);
    TurnInvMoves(mode, poolNew, script, n - 1);
    MoveTakes(start, script, m);
    if k < m.next {
      j := TakenAt(mode, poolNew, start, script, n - 1, k);
    } else {
      j := n - 1;
    }
  }

  /**
   On every script nothing is dropped: each stimulus that has been used was taken up by one move, on the way to
   where the machine stands, and TakenUp says what it came to.
   */
  lemma {:induction false} StimulusTaken(mode: Mode, poolNew: bool, start: Ctx, script: seq<Event>, m: Moment, k: nat)
    requires start == Start(mode, poolNew) && Reached(start, script, m) && k < |script| && k < m.next
    ensures exists d, e ::
              TakenUp(script, k, d, e) && Reached(start, script, d) && Reached(start, script, e) && e.es <= m.es
  {
    hide Move, TakenUp, TurnInv, Start;
    var n: nat :| Moves(script, start, n) == m;
    var j := TakenAt(mode, poolNew, start, script, n, k);
    MovesExtend(script, start, j + 1, n);
    var d, e := Moves(script, start, j), Moves(script, start, j + 1);
    assert TakenUp(script, k, d, e);
  }
}
