/** The pty, shell and window-change protocol towards the HaaS server (RFC 4254, sections 6.2, 6.5 and 6.7). */
module TerminalProtocol {
  import opened Common
  import opened Ledger
  import opened Session
  import opened Growth

  predicate PtyGranted(op: Op) { op.PtyRequest? && op.ok }

  predicate ShellGranted(op: Op) { op.ShellRequest? && op.ok }

  function Ptys(log: seq<Op>): nat {
    if log == [] then 0 else Ptys(log[..|log| - 1]) + (if PtyGranted(log[|log| - 1]) then 1 else 0)
  }

  function Shells(log: seq<Op>): nat {
    if log == [] then 0 else Shells(log[..|log| - 1]) + (if ShellGranted(log[|log| - 1]) then 1 else 0)
  }

  /** Whether a request may go upstream after this log. */
  predicate Due(log: seq<Op>, op: Op) {
    && (op.WindowChange? ==> Ptys(log) > 0)
    && (op.PtyRequest? ==> Ptys(log) == 0)
    && (op.ShellRequest? ==> Shells(log) == 0)
  }

  predicate InTurn(log: seq<Op>) {
    forall k :: 0 <= k < |log| ==> Due(log[..k], log[k])
  }

  predicate TerminalInv(c: Ctx) {
    && Ptys(c.log) == (if c.havePty then 1 else 0)
    && Shells(c.log) == (if c.haveShell then 1 else 0)
    && InTurn(c.log)
  }

  lemma {:induction false} PlumbingKeeps(x: seq<Op>, y: seq<Op>, s: Option<Handle>, kind: Kind)
    requires Grows(x, y, s, kind) && kind != Terminal && InTurn(x)
    ensures Ptys(y) == Ptys(x) && Shells(y) == Shells(x) && InTurn(y)
    decreases |y|
  {
    if |x| < |y| {
      var before := y[..|y| - 1];
      PlumbingKeeps(x, before, s, kind);
      forall k | 0 <= k < |y|
        ensures Due(y[..k], y[k])
      {
        if k < |before| {
          assert y[..k] == before[..k] && before[k] == y[k];
        }
      }
    } else {
      assert x == y;
    }
  }

  lemma OneRequest(c: Ctx, op: Op)
    requires InTurn(c.log) && Due(c.log, op)
    ensures InTurn(c.log + [op])
    ensures Ptys(c.log + [op]) == Ptys(c.log) + (if PtyGranted(op) then 1 else 0)
    ensures Shells(c.log + [op]) == Shells(c.log) + (if ShellGranted(op) then 1 else 0)
  {
    hide Due;
    var y := c.log + [op];
    assert y[..|c.log|] == c.log;
    forall k | 0 <= k < |y|
      ensures Due(y[..k], y[k])
    {
      if k < |c.log| {
        assert y[..k] == c.log[..k] && c.log[k] == y[k];
      }
    }
  }

  lemma RequestStep(c: Ctx, op: Op, d: Ctx)
    requires TerminalInv(c) && d.log == c.log + [op] && Due(c.log, op)
    requires d.havePty == (c.havePty || PtyGranted(op)) && d.haveShell == (c.haveShell || ShellGranted(op))
    ensures TerminalInv(d)
  {
    hide Ptys, Shells, InTurn;
    OneRequest(c, op);
  }

  lemma RequestsStep(c: Ctx, ok: bool)
    requires TerminalInv(c)
    ensures TerminalInv(DoPty(c, ok)) && TerminalInv(DoShell(c, ok)) && TerminalInv(DoWindow(c))
  {
    hide Ptys, Shells, InTurn;
    if c.haasChannel.Some? {
      var h := c.haasChannel.value;
      if !c.havePty {
        RequestStep(c, PtyRequest(h, ok), DoPty(c, ok));
      } else {
        RequestStep(c, WindowChange(h), DoWindow(c));
      }
      if !c.haveShell {
        RequestStep(c, ShellRequest(h, ok), DoShell(c, ok));
      }
    }
  }

  lemma TerminalStep(c: Ctx, e: Event)
    requires TerminalInv(c) && Enabled(c, e)
    ensures TerminalInv(Next(c, e))
  {
    hide TerminalInv, DoPty, DoShell, DoWindow;
    if KindOf(e) == Terminal {
      RequestsStep(c, if e.Window? then true else e.ok);
    } else {
      OtherStep(c, e);
    }
  }

  lemma OtherStep(c: Ctx, e: Event)
    requires TerminalInv(c) && Enabled(c, e) && KindOf(e) != Terminal
    ensures TerminalInv(Next(c, e))
  {
    hide Next, Enabled, Ptys, Shells, InTurn, KindOf, Foreign, Grows;
    NothingForeign(c);
    NextGrows(c, e, None);
    PlumbingKeeps(c.log, Next(c, e).log, None, KindOf(e));
    FlagsStay(c, e);
  }

  lemma {:induction false} TerminalInvRun(mode: Mode, poolNew: bool, es: seq<Event>)
    requires Legal(Start(mode, poolNew), es)
    ensures TerminalInv(Run(Start(mode, poolNew), es))
  {
    hide Next, TerminalInv;
    if es != [] {
      TerminalInvRun(mode, poolNew, es[..|es| - 1]);
      TerminalStep(Run(Start(mode, poolNew), es[..|es| - 1]), es[|es| - 1]);
    } else {
      StartsInTurn(mode, poolNew);
    }
  }

  lemma StartsInTurn(mode: Mode, poolNew: bool)
    ensures TerminalInv(Start(mode, poolNew))
  {
    assert Start(mode, poolNew).log[..0] == [];
  }

  /** A request granted somewhere in a log is counted. */
  lemma {:induction false} Counted(log: seq<Op>, j: nat)
    requires j < |log|
    ensures (PtyGranted(log[j]) ==> Ptys(log) > 0) && (ShellGranted(log[j]) ==> Shells(log) > 0)
  {
    if j < |log| - 1 {
      Counted(log[..|log| - 1], j);
    }
  }

  lemma {:induction false} Found(log: seq<Op>)
    ensures Ptys(log) > 0 ==> exists j :: 0 <= j < |log| && PtyGranted(log[j])
  {
    if log != [] {
      Found(log[..|log| - 1]);
      assert PtyGranted(log[|log| - 1]) || forall j :: 0 <= j < |log| - 1 ==> log[j] == log[..|log| - 1][j];
    }
  }

  /**
   Over every run, towards the HaaS server: once a pty has been granted no pty request follows, once a
   shell has been granted no shell request follows - so at most one of each succeeds - and every window
   change comes after a pty that was granted.  The flags by which later requests are answered say
   exactly whether that has happened.
   */
  lemma {:induction false} TerminalOncePerSession(mode: Mode, poolNew: bool, es: seq<Event>)
    requires Legal(Start(mode, poolNew), es)
    ensures var c := Run(Start(mode, poolNew), es);
            && (forall j, k :: 0 <= j < k < |c.log| && PtyGranted(c.log[j]) ==> !c.log[k].PtyRequest?)
            && (forall j, k :: 0 <= j < k < |c.log| && ShellGranted(c.log[j]) ==> !c.log[k].ShellRequest?)
            && (forall k :: 0 <= k < |c.log| && c.log[k].WindowChange? ==>
                  exists j :: 0 <= j < k && PtyGranted(c.log[j]))
            && Ptys(c.log) == (if c.havePty then 1 else 0) && Shells(c.log) == (if c.haveShell then 1 else 0)
  {
    hide Run, Legal, Ptys, Shells;
    TerminalInvRun(mode, poolNew, es);
    var c := Run(Start(mode, poolNew), es);
    forall j, k | 0 <= j < k < |c.log|
      ensures (PtyGranted(c.log[j]) ==> !c.log[k].PtyRequest?) && (ShellGranted(c.log[j]) ==> !c.log[k].ShellRequest?)
    {
      Counted(c.log[..k], j);
      assert Due(c.log[..k], c.log[k]);
    }
    forall k | 0 <= k < |c.log| && c.log[k].WindowChange?
      ensures exists j :: 0 <= j < k && PtyGranted(c.log[j])
    {
      assert Due(c.log[..k], c.log[k]);
      Found(c.log[..k]);
      var j :| 0 <= j < k && PtyGranted(c.log[..k][j]);
      assert PtyGranted(c.log[j]);
    }
  }
}
