/**
 tSshContext in memory, with its callbacks and loops as methods (src/proxy.c).  `view` is the state
 of the transition system that the fields amount to; every method says which of its steps it takes.
 `trace` is the run so far, so that what is proved of all runs holds of this object.  What libssh, the
 clock and the signals do comes in as a script; one that ends stands for ShouldStop.  `Comes` ties the
 loops to the machine of Scripts, which says what is done with a script move by move.
 */
module Proxying {
  import opened Common
  import opened Ledger
  import opened Pool
  import opened Session
  import opened Handles
  import opened ForwardPools
  import Effects
  import Histories
  import opened Release
  import opened Scripts
  import opened Streams
  import opened Taint

  lemma DropLogs(c: Ctx, h: Option<Handle>)
    ensures DropIfSome(c, h) == c.(log := Dropped(c.log, h))
  {
  }

  lemma ReleasePairLogs(c: Ctx, p: Pair)
    ensures Session.ReleasePair(c, p) == c.(log := Released(c.log, p))
  {
    hide DropIfSome, Dropped;
    DropLogs(c, p.source);
    DropLogs(DropIfSome(c, p.source), p.destiny);
  }

  lemma {:induction false} DropPoolLogs(c: Ctx)
    ensures DropPool(c) == c.(pool := NoPool, log := ReleasedAll(c.log, Items(c)))
    decreases |Items(c)|
  {
    hide Session.ReleasePair, Released;
    if c.pool.ForwardPool? && c.pool.items != [] {
      var c1 := c.(pool := c.pool.(items := c.pool.items[1..]));
      ReleasePairLogs(c1, c.pool.items[0]);
      DropPoolLogs(Session.ReleasePair(c1, c.pool.items[0]));
    }
  }

  /** The release loop releases exactly the swept pairs, once each and in order. */
  lemma {:induction false} ReleaseClosedLogs(c: Ctx)
    ensures Session.ReleaseClosed(c).log == ReleasedAll(c.log, Swept(Items(c)))
    decreases |Items(c)|
  {
    hide Session.ReleasePair, Released, SwapRemove;
    var f := Pool.FindClosed(Items(c));
    if f.Some? {
      var c1 := c.(pool := c.pool.(items := SwapRemove(c.pool.items, f.value)));
      ReleasePairLogs(c1, c.pool.items[f.value]);
      FewerItems(c);
      ReleaseClosedLogs(ReleaseAt(c, f.value));
      assert Swept(Items(c)) == [c.pool.items[f.value]] + Swept(SwapRemove(c.pool.items, f.value));
    }
  }

  lemma CloseOnlyLogs(c: Ctx)
    ensures OnlyLogged(c, CloseIfSome(DropIfSome(c, c.haasChannel), c.haasSession))
  {
    hide DropIfSome;
    DropOnlyLogs(c, c.haasChannel);
  }

  lemma AddedIs(c: Ctx, p: Pair)
    requires c.pool.ForwardPool? && |c.pool.items| <= c.pool.alloc
    ensures var alloc := if |c.pool.items| == c.pool.alloc then c.pool.alloc + POOL_ALLOC_SIZE else c.pool.alloc;
            Session.AddPair(c, p) == c.(pool := ForwardPool(c.pool.items + [p], alloc))
  {
  }

  lemma FewerItems(c: Ctx)
    ensures var f := Pool.FindClosed(Items(c)); f.Some? ==> |Items(ReleaseAt(c, f.value))| < |Items(c)|
  {
    hide Session.ReleasePair;
    var f := Pool.FindClosed(Items(c));
    if f.Some? {
      ReleasePairOnlyLogs(c.(pool := c.pool.(items := SwapRemove(c.pool.items, f.value))), c.pool.items[f.value]);
    }
  }

  class SshContext {
    const mode: Mode
    const trapSession: Handle
    const calls: Calls
    var trapChannel: Option<Handle>
    var haasSession: Option<Handle>
    var haasChannel: Option<Handle>
    var authenticated: bool
    var retries: nat
    var error: bool
    var closed: bool
    var havePty: bool
    var haveShell: bool
    var pool: FwPool?
    ghost const poolNew: bool
    ghost var parts: set<object>
    ghost var view: Ctx
    ghost var trace: seq<Event>

    ghost function Slots(): seq<FwPair?>
      reads this`pool, pool, if pool == null then null else pool.items
    {
      if pool == null then [] else pool.Contents()
    }

    /** The pool in memory is made of `parts`, and holds what fp says. */
    ghost predicate PoolIs(fp: ForwardPool)
      reads this`pool, this`parts, parts
    {
      if pool == null then fp.NoPool?
      else
        && fp.ForwardPool? && pool in parts && (pool.items == null || pool.items in parts)
        && pool.Is(fp.items, parts) && |fp.items| == pool.used <= pool.alloc == fp.alloc
    }

    ghost predicate FieldsAre(c: Ctx)
      reads this`trapChannel, this`haasSession, this`haasChannel, this`authenticated, this`retries, this`error
      reads this`closed, this`havePty, this`haveShell, calls
    {
      && mode == c.mode && trapSession == c.trapSession && trapChannel == c.trapChannel
      && haasSession == c.haasSession && haasChannel == c.haasChannel
      && authenticated == c.authenticated && retries == c.retries && error == c.disconnected && closed == c.closed
      && havePty == c.havePty && haveShell == c.haveShell
      && calls.next == c.next && calls.log == c.log
    }

    ghost predicate Valid()
      reads this, calls, parts
    {
      && FieldsAre(view) && PoolIs(view.pool) && (pool == null <==> view.pool.NoPool?)
      && this !in parts && calls !in parts
    }

    /** The view is where the recorded events lead. */
    ghost predicate OnTrace()
      reads this`view, this`trace
    {
      Legal(Start(mode, poolNew), trace) && view == Run(Start(mode, poolNew), trace)
    }

    /** The machine comes here on this script: to this point, with `next` stimuli used, and with this trace. */
    ghost predicate Comes(script: seq<Stimulus>, at: Point, next: nat)
      reads this`view, this`trace
    {
      Reached(Start(mode, poolNew), Events(script), Moment(at, view, trace, next))
    }

    /** Between two events of a session that has not ended. */
    ghost predicate Running()
      reads this, calls, parts
    {
      Valid() && OnTrace() && view.phase != Closing && view.phase != Done && HandleInv(view)
    }

    /** ProxyProcess up to the key exchange. */
    constructor (mode: Mode, poolNew: bool)
      ensures Valid() && OnTrace() && fresh(calls) && fresh(parts) && trace == []
      ensures view == Start(mode, poolNew) && this.mode == mode && this.poolNew == poolNew
    {
      var session: Calls := new Calls();
      var trap := session.NewSession();
      this.mode, trapSession, calls := mode, trap, session;
      trapChannel, haasSession, haasChannel := None, None, None;
      authenticated, retries, error, closed, havePty, haveShell := false, 0, false, false, false, false;
      this.poolNew := poolNew;
      pool, parts, view, trace := null, {}, Start(mode, poolNew), [];
      new;
      if mode != Deny && mode != Fake && poolNew {
        pool := new FwPool();
        parts := {pool};
      }
    }

    /** A context just set up is ready for its first event. */
    lemma Begun()
      requires Valid() && OnTrace() && view == Start(mode, poolNew)
      ensures Running() && view.phase == Kex
    {
      StartInOrder(mode, poolNew);
    }

    // -------------------------------------------------------------- single calls

    method Call(op: Op)
      requires Valid()
      modifies this`view, calls`log
      ensures Valid() && view == Log(old(view), op)
    {
      hide PoolIs;
      view := Log(view, op);
      calls.Do(op);
    }

    method OpenSession() returns (s: Handle)
      requires Valid()
      modifies this`view, calls
      ensures Valid() && s == old(view).next && view == Session.OpenSession(old(view))
    {
      hide PoolIs;
      view := Session.OpenSession(view);
      s := calls.NewSession();
    }

    method OpenChannel(session: Handle) returns (c: Handle)
      requires Valid()
      modifies this`view, calls
      ensures Valid() && c == old(view).next && view == Session.OpenChannel(old(view), session)
    {
      hide PoolIs;
      view := Session.OpenChannel(view, session);
      c := calls.NewChannel(session);
    }

    method DropChannel(h: Option<Handle>)
      requires Valid()
      modifies this`view, calls`log
      ensures Valid() && view == DropIfSome(old(view), h)
    {
      hide PoolIs;
      view := DropIfSome(view, h);
      if h.Some? {
        calls.DropChannel(h.value);
      }
    }

    // -------------------------------------------------------------- authentication and the session channel

    /** Whether a session to the HaaS server was set up; one that was not is freed again. */
    method HaasConnect(outcome: AuthOutcome) returns (back: bool)
      requires Valid()
      modifies this`haasSession, this`view, calls
      ensures Valid() && back == outcome.AuthSucceeds?
      ensures back ==> view == Session.OpenSession(old(view)).(haasSession := Some(old(view).next))
      ensures !back ==> view == if outcome.NoSession? then old(view)
                                else Log(Session.OpenSession(old(view)), SessionFree(old(view).next))
    {
      hide PoolIs;
      back := false;
      if !outcome.NoSession? {
        var s := OpenSession();
        var session := Some(s);
        if !outcome.ConnectFails? {
          if outcome.AuthSucceeds? {
            haasSession, view := session, view.(haasSession := session);
            session, back := None, true;
          }
        }
        if session.Some? {
          Call(SessionFree(session.value));
        }
      }
    }

    method TrapAuthPassword(outcome: AuthOutcome) returns (accepted: bool)
      requires Valid() && Enabled(view, AuthPassword(outcome))
      modifies this`haasSession, this`authenticated, this`retries, this`error, this`view, calls
      ensures Valid() && view == DoAuthPassword(old(view), outcome)
      ensures accepted == outcome.AuthSucceeds?
      ensures if accepted then authenticated && haasSession == Some(old(calls.next)) && retries == old(retries)
              else retries == old(retries) + 1 && error == (retries >= 3) && haasSession == old(haasSession)
    {
      hide PoolIs;
      accepted := false;
      var i := HaasConnect(outcome);
      if i {
        authenticated, view := true, view.(authenticated := true);
        accepted := true;
      } else {
        CountFailure();
      }
    }

    method CountFailure()
      requires Valid()
      modifies this`retries, this`error, this`view
      ensures Valid() && view == AuthFailed(old(view))
    {
      hide PoolIs;
      view := AuthFailed(view);
      retries := retries + 1;
      if retries >= MAX_RETRIES {
        error := true;
      }
    }

    method SetChannels(trap: Option<Handle>, haas: Option<Handle>)
      requires Valid()
      modifies this`trapChannel, this`haasChannel, this`view
      ensures Valid() && view == old(view).(trapChannel := trap, haasChannel := haas) && trapChannel == trap
    {
      hide PoolIs;
      view := view.(trapChannel := trap, haasChannel := haas);
      trapChannel, haasChannel := trap, haas;
    }

    /** The client's first session channel gets a mate on the HaaS side, or is refused. */
    method TrapNewChannel(trapNew: bool, haasNew: bool, openOk: bool) returns (back: Option<Handle>)
      requires Valid() && Enabled(view, NewChannel(trapNew, haasNew, openOk))
      modifies this`trapChannel, this`haasChannel, this`view, calls
      ensures Valid() && view == DoNewChannel(old(view), trapNew, haasNew, openOk)
      ensures back == view.trapChannel
      ensures old(trapChannel).None? && haasSession.Some? && trapNew && haasNew && openOk ==>
                && trapChannel == Some(old(calls.next)) && haasChannel == Some(old(calls.next) + 1)
                && calls.log == old(calls.log) + [ChannelNew(old(calls.next), trapSession),
                                                  ChannelNew(old(calls.next) + 1, haasSession.value)]
    {
      hide PoolIs, FieldsAre;
      LogIs();
      FieldFacts();
      if trapChannel.None? && trapNew {
        var t := OpenChannel(trapSession);
        var trap, haas := Some(t), None;
        if haasSession.Some? && haasNew {
          var h := OpenChannel(haasSession.value);
          haas := Some(h);
          if openOk {
            SetChannels(trap, haas);
            trap, haas := None, None;
          }
          DropChannel(haas);
        }
        DropChannel(trap);
      }
      LogIs();
      FieldFacts();
      back := trapChannel;
    }

    // -------------------------------------------------------------- the terminal

    /** A pty goes upstream once; a client that already has one is told yes. */
    method TrapChannelPtyRequest(ok: bool) returns (granted: bool)
      requires Valid() && Enabled(view, Pty(ok))
      modifies this`havePty, this`view, calls`log
      ensures Valid() && view == Next(old(view), Pty(ok))
      ensures granted == view.havePty && (old(view).havePty ==> granted && view == old(view))
      ensures old(havePty) ==> granted && calls.log == old(calls.log)
      ensures !old(havePty) && haasChannel.Some? ==>
                granted == ok && calls.log == old(calls.log) + [PtyRequest(haasChannel.value, ok)]
    {
      hide PoolIs;
      view := Next(view, Pty(ok));
      if !havePty {
        if haasChannel.Some? {
          calls.Do(PtyRequest(haasChannel.value, ok));
          if ok {
            havePty := true;
          }
        }
      }
      granted := havePty;
    }

    method TrapChannelPtyWindowChange(ok: bool) returns (done: bool)
      requires Valid() && Enabled(view, Window(ok))
      modifies this`view, calls`log
      ensures Valid() && view == Next(old(view), Window(ok))
      ensures done == (view.log != old(view).log && ok)
      ensures havePty && haasChannel.Some? ==>
                done == ok && calls.log == old(calls.log) + [WindowChange(haasChannel.value)]
    {
      hide PoolIs;
      view := Next(view, Window(ok));
      done := false;
      if havePty {
        if haasChannel.Some? {
          calls.Do(WindowChange(haasChannel.value));
          done := ok;
        }
      }
    }

    method TrapChannelShellRequest(ok: bool) returns (granted: bool)
      requires Valid() && Enabled(view, Shell(ok))
      modifies this`haveShell, this`view, calls`log
      ensures Valid() && view == Next(old(view), Shell(ok))
      ensures granted == view.haveShell && (old(view).haveShell ==> granted && view == old(view))
      ensures old(haveShell) ==> granted && calls.log == old(calls.log)
      ensures !old(haveShell) && haasChannel.Some? ==>
                granted == ok && calls.log == old(calls.log) + [ShellRequest(haasChannel.value, ok)]
    {
      hide PoolIs;
      view := Next(view, Shell(ok));
      if !haveShell {
        if haasChannel.Some? {
          calls.Do(ShellRequest(haasChannel.value, ok));
          if ok {
            haveShell := true;
          }
        }
      }
      granted := haveShell;
    }

    // -------------------------------------------------------------- data

    method TrapChannelDataCallback(stderr: bool, data: seq<Byte>, wrote: int) returns (back: int)
      requires Valid() && Enabled(view, TrapData(stderr, data, wrote)) && ChannelsPaired(view)
      modifies this`view, calls`log
      ensures Valid() && view == Next(old(view), TrapData(stderr, data, wrote))
      ensures back == ReturnOf(old(view), TrapData(stderr, data, wrote))
      ensures haasChannel.Some? ==>
                && haasSession.Some? && back == wrote
                && calls.log == old(calls.log) + [Write(haasSession.value, haasChannel.value, stderr,
                                                        if wrote < 0 then [] else data[..wrote])]
    {
      hide PoolIs;
      view := Next(view, TrapData(stderr, data, wrote));
      back := -1;
      if haasChannel.Some? {
        calls.Do(Write(haasSession.value, haasChannel.value, stderr, Accepted(data, wrote)));
        back := wrote;
      }
    }

    method HaasChannelDataCallback(stderr: bool, data: seq<Byte>, wrote: int) returns (back: int)
      requires Valid() && Enabled(view, HaasData(stderr, data, wrote))
      modifies this`view, calls`log
      ensures Valid() && view == Next(old(view), HaasData(stderr, data, wrote))
      ensures back == ReturnOf(old(view), HaasData(stderr, data, wrote))
      ensures trapChannel.Some? ==>
                && back == wrote
                && calls.log == old(calls.log) + [Write(trapSession, trapChannel.value, stderr,
                                                        if wrote < 0 then [] else data[..wrote])]
    {
      hide PoolIs;
      view := Next(view, HaasData(stderr, data, wrote));
      back := -1;
      if trapChannel.Some? {
        calls.Do(Write(trapSession, trapChannel.value, stderr, Accepted(data, wrote)));
        back := wrote;
      }
    }

    // -------------------------------------------------------------- forwards

    /** Nothing is taken out of the pool or moved, and what is added to it is new. */
    twostate predicate OnlyAdded()
      reads this`pool, this`parts, pool, if pool == null then null else pool.items
    {
      pool == old(pool) && old(Slots()) <= Slots() && fresh(parts - old(parts))
    }

    /** FwPairAlloc. */
    method AllocPair() returns (pair: FwPair)
      requires Valid()
      modifies this`view, calls
      ensures Valid() && fresh(pair) && pair.Value() == Pair(old(view).next, None, None, false)
      ensures view == Log(old(view), PairNew(old(view).next)).(next := old(view).next + 1)
    {
      hide PoolIs;
      view := Log(view, PairNew(view.next)).(next := view.next + 1);
      var p := calls.NewPair();
      pair := new FwPair(p);
    }

    /** FwPairRelease of a pair outside the pool. */
    method ReleasePair(pair: FwPair)
      requires Valid() && (pool != null ==> pair !in parts)
      modifies this`view, calls`log, pair
      ensures Valid() && view == Session.ReleasePair(old(view), old(pair.Value()))
    {
      ReleasePairLogs(view, pair.Value());
      hide PoolIs, Session.ReleasePair, Released;
      view := Session.ReleasePair(view, pair.Value());
      pair.Release(calls);
    }

    /** What validity says of a pool that exists. */
    lemma PoolFacts()
      requires Valid() && pool != null
      ensures pool in parts && (pool.items == null || pool.items in parts) && pool.Is(view.pool.items, parts)
      ensures view.pool.ForwardPool? && |view.pool.items| == pool.used <= pool.alloc == view.pool.alloc
      ensures Slots() == pool.Contents()
      ensures FieldsAre(view) && this !in parts && calls !in parts
    {
    }

    /** What it says of the fields the callbacks read. */
    lemma FieldFacts()
      requires Valid()
      ensures mode == view.mode && trapSession == view.trapSession && trapChannel == view.trapChannel
      ensures haasSession == view.haasSession && haasChannel == view.haasChannel
      ensures (pool == null <==> view.pool.NoPool?)
    {
    }

    /** The view catches up with what happened to the pool. */
    ghost method SetPool(ps: seq<Pair>)
      requires FieldsAre(view) && this !in parts && calls !in parts && pool != null && pool.Is(ps, parts)
      modifies this`view
      ensures Valid() && view == old(view).(pool := ForwardPool(ps, pool.alloc))
    {
      hide FieldsAre, Describes;
      PoolAside(view, ForwardPool(ps, pool.alloc));
      view := view.(pool := ForwardPool(ps, pool.alloc));
    }

    lemma PoolAside(c: Ctx, fp: ForwardPool)
      ensures FieldsAre(c.(pool := fp)) <==> FieldsAre(c)
    {
    }

    /** The pool has come to hold ps, and the view and the footprint follow. */
    ghost method Grown(ps: seq<Pair>, more: set<object>)
      requires FieldsAre(view) && this !in parts + more && calls !in parts + more && pool != null
      requires pool.Is(ps, parts + more)
      modifies this`view, this`parts
      ensures Valid() && view == old(view).(pool := ForwardPool(ps, pool.alloc)) && parts == old(parts) + more
    {
      hide FieldsAre, FwPool.Is;
      parts := parts + more;
      SetPool(ps);
    }

    /** FwPoolAdd, and what is filled in on success. */
    method AddPair(pair: FwPair, request: Request, src: Handle, dst: Option<Handle>, reallocated: bool)
      requires Valid() && pool != null && pair !in parts
      requires pair.source.channel.None? && pair.destiny.channel.None? && !pair.closed
      modifies this`view, this`parts, calls`log, parts, pair
      ensures Valid() && pool == old(pool) && old(Slots()) <= Slots() && fresh(parts - old(parts) - {pair})
      ensures view == if Full(old(view)) && !reallocated then Log(old(view), Undefined)
                      else Session.AddPair(old(view), Pair(pair.id, Some(src), dst, false))
    {
      hide FwPool.Is, FieldsAre, PoolIs, FwPool.Contents, FwPool.Valid, Describes, Session.AddPair;
      ghost var ps := view.pool.items;
      PoolFacts();
      AddedIs(view, Pair(pair.id, Some(src), dst, false));
      var source := Endpoint(Some(request.originator), request.originatorPort, Some(src));
      var destiny := Endpoint(Some(request.destination), request.destinationPort, dst);
      var stored := pool.Enlist(pair, source, destiny, reallocated, ps, parts);
      if stored.PastTheEnd? {
        SetPool(ps);
        Call(Undefined);
      } else {
        Grown(ps + [Pair(pair.id, Some(src), dst, false)], {pair, pool.items});
      }
    }

    /** The pair over src and dst joins the pool, or is given back with them when there is no pool. */
    method StorePair(request: Request, src: Handle, dst: Option<Handle>, pairNew: bool, reallocated: bool)
      requires Valid()
      modifies this`view, this`parts, calls, parts
      ensures Valid() && view == Store(old(view), src, dst, pairNew, reallocated) && OnlyAdded()
    {
      hide PoolIs, FieldsAre;
      if pool == null {
        RefusePair(src, dst, pairNew, reallocated);
      } else {
        KeepPair(request, src, dst, pairNew, reallocated);
      }
    }

    method KeepPair(request: Request, src: Handle, dst: Option<Handle>, pairNew: bool, reallocated: bool)
      requires Valid() && pool != null
      modifies this`view, this`parts, calls, parts
      ensures Valid() && view == Store(old(view), src, dst, pairNew, reallocated) && OnlyAdded()
    {
      hide PoolIs, FieldsAre, Refuse;
      if pairNew {
        var pair := AllocPair();
        AddPair(pair, request, src, dst, reallocated);
      } else {
        Call(Undefined);      // the null pair is stored, and dereferenced by the next statement
      }
    }

    /** FwPoolAdd has no pool to add to: the pair goes back, and the refusal takes the channels. */
    method RefusePair(src: Handle, dst: Option<Handle>, pairNew: bool, reallocated: bool)
      requires Valid() && pool == null
      modifies this`view, calls
      ensures Valid()
      ensures view == Store(old(view), src, dst, pairNew, reallocated)
    {
      hide PoolIs, FieldsAre, Dropped;
      if pairNew {
        var pair := AllocPair();
        ReleasePair(pair);
      }
      DropChannel(dst);
      DropChannel(Some(src));
    }

    /** A direct-tcpip request: the far channel first, then the near one, then the pair over both. */
    method TrapMessageCallback(request: Request, dstNew: bool, openOk: bool, accepted: bool, pairNew: bool,
                               reallocated: bool)
      returns (handled: bool)
      requires Valid()
      modifies this`view, this`parts, calls, parts
      ensures Valid() && view == DoDirectTcpip(old(view), dstNew, openOk, accepted, pairNew, reallocated) && OnlyAdded()
      ensures handled == (mode != Deny && (mode == Allow ==> haasSession.Some? && dstNew && openOk))
      ensures mode == Deny ==> calls.log == old(calls.log)
      ensures mode == Fake && accepted ==>
                calls.log == old(calls.log) + [ChannelNew(old(calls.next), trapSession), ChannelUse(old(calls.next)),
                                               ChannelFree(old(calls.next))]
    {
      hide PoolIs, FieldsAre, OpenFar, Session.Store;
      ghost var c := view;
      LogIs();
      FieldFacts();
      RequestSpelled(c, dstNew, openOk, pairNew, reallocated);
      handled := false;
      if mode != Deny {
        var dst: Option<Handle>;
        dst, handled := OpenFarChannel(dstNew, openOk);
        if !handled || !accepted {
          DropChannel(dst);
        } else {
          AcceptForward(request, dst, pairNew, reallocated);
        }
      }
      LogIs();
    }

    /** The request accepted: in FAKE only to be closed again, otherwise as a pair. */
    method AcceptForward(request: Request, dst: Option<Handle>, pairNew: bool, reallocated: bool)
      requires Valid()
      modifies this`view, this`parts, calls, parts
      ensures Valid() && OnlyAdded()
      ensures var v := old(view);
              view == if mode == Fake then Refuse(Session.OpenChannel(v, trapSession), Some(v.next), dst)
                      else Store(Session.OpenChannel(v, trapSession), v.next, dst, pairNew, reallocated)
    {
      hide PoolIs, FieldsAre, Session.Store, DropIfSome;
      var src := OpenChannel(trapSession);
      if mode == Fake {
        DropChannel(dst);
        DropChannel(Some(src));
      } else {
        StorePair(request, src, dst, pairNew, reallocated);
      }
    }

    /** In ALLOW, a channel opened towards the destination; one that did not open is freed, yet still returned. */
    method OpenFarChannel(dstNew: bool, openOk: bool) returns (dst: Option<Handle>, accept: bool)
      requires Valid()
      modifies this`view, calls
      ensures Valid() && Far(view, dst, accept) == OpenFar(old(view), dstNew, openOk)
    {
      hide PoolIs, FieldsAre;
      FieldFacts();
      dst, accept := None, mode != Allow;
      if mode == Allow && haasSession.Some? && dstNew {
        var h := OpenChannel(haasSession.value);
        dst := Some(h);
        if openOk {
          accept := true;
        } else {
          Call(ChannelFree(h));
        }
      }
    }

    /** What a channel with callbacks knows: its pair, and which end of it the channel is. */
    ghost predicate IsEnd(pair: FwPair, session: Handle, channel: Handle, i: nat, fromSource: bool)
      requires Valid()
      reads this, calls, parts, pool, if pool == null then null else pool.items
    {
      && i < |Slots()| && Slots()[i] == pair && i < |Items(view)|
      && (if fromSource then Items(view)[i].source == Some(channel) && session == trapSession
          else Items(view)[i].destiny == Some(channel) && haasSession == Some(session))
    }

    method ForwardChannelDataCallback(pair: FwPair, session: Handle, channel: Handle, stderr: bool, data: seq<Byte>,
                                      wrote: int,
                                      ghost i: nat, ghost fromSource: bool)
      returns (back: int)
      requires Valid() && HandleInv(view) && IsEnd(pair, session, channel, i, fromSource)
      requires Enabled(view, ForwardData(i, fromSource, stderr, data, wrote))
      modifies this`view, calls`log
      ensures Valid() && view == DoForwardData(old(view), Items(old(view))[i], fromSource, stderr, data, wrote)
      ensures back == ReturnOf(old(view), ForwardData(i, fromSource, stderr, data, wrote))
      ensures var taken := if wrote < 0 then [] else data[..wrote];
              match mode
              case Allow =>
                && back == wrote && haasSession.Some? && pair.source.channel.Some? && pair.destiny.channel.Some?
                && calls.log == old(calls.log) + [
                     if fromSource then Write(haasSession.value, pair.destiny.channel.value, stderr, taken)
                     else Write(trapSession, pair.source.channel.value, stderr, taken)]
              case Echo => back == wrote && calls.log == old(calls.log) + [Write(session, channel, stderr, taken)]
              case _ => calls.log == old(calls.log)
    {
      PairAt(i);
      back := -1;
      if pair.context {
        if mode == Allow {
          var to, via := pair.source.channel, Some(trapSession);
          if Some(channel) == pair.source.channel {
            to, via := pair.destiny.channel, haasSession;
          }
          Call(Write(via.value, to.value, stderr, Accepted(data, wrote)));
          back := wrote;
        }
        if mode == Echo {
          Call(Write(session, channel, stderr, Accepted(data, wrote)));
          back := wrote;
        }
        if mode == Null {
          back := Wrap32(|data|);
        }
      }
    }

    lemma PairAt(i: nat)
      requires Valid() && HandleInv(view) && i < |Slots()|
      ensures |Items(view)| == |Slots()| && pool != null && Slots()[i] != null && Slots()[i].context
      ensures Slots()[i].Value() == Items(view)[i]
      ensures var p := Items(view)[i]; p.source.Some? && p.destiny.Some? == (mode == Allow) && p.source != p.destiny
      ensures mode == Allow ==> haasSession.Some?
    {
      assert Items(view)[i] in Items(view);
    }

    method ForwardChannelCloseCallback(pair: FwPair, ghost i: nat)
      requires Valid() && i < |Slots()| && Slots()[i] == pair && i < |Items(view)|
      modifies this`view, pair
      ensures Valid() && view == MarkClosed(old(view), i)
      ensures pair.closed && |Items(view)| == |Items(old(view))|
      ensures Items(view)[i] == Items(old(view))[i].(closed := true)
      ensures forall k :: 0 <= k < |Items(view)| && k != i ==> Items(view)[k] == Items(old(view))[k]
    {
      hide FieldsAre, PoolIs, FwPool.Is;
      ghost var ps := view.pool.items;
      PoolFacts();
      pool.Close(pair, i, ps, parts);
      SetPool(CloseAt(ps, i));
    }

    /** The close callbacks of both session channels. */
    method ChannelCloseCallback()
      requires Valid()
      modifies this`closed, this`view
      ensures Valid() && view == old(view).(closed := true) && closed
    {
      hide PoolIs;
      view := view.(closed := true);
      closed := true;
    }

    // -------------------------------------------------------------- the release loop, and the end

    /** The first closed pair leaves the pool, if there is one. */
    method TakeFirstClosed() returns (pair: FwPair?, ghost rest: seq<Pair>)
      requires Valid() && pool != null
      modifies this`view, this`parts, parts
      ensures Valid() && pool != null && parts <= old(parts) && calls.log == old(calls.log)
      ensures view == old(view).(pool := ForwardPool(rest, old(view).pool.alloc))
      ensures pair == null ==> Pool.FindClosed(Items(old(view))).None? && rest == Items(old(view))
      ensures pair != null ==> pair in old(parts) && pair !in parts && Taken(Items(old(view)), rest, pair.Value())
    {
      hide PoolIs, FieldsAre, FwPool.Is, Taken, FwPool.Contents, FwPool.Valid, Describes, Pool.FindClosed;
      ghost var ps := view.pool.items;
      PoolFacts();
      pair, rest := pool.TakeClosed(ps, parts);
      if pair != null {
        parts := parts - {pair};
      }
      SetPool(rest);
    }

    /** One turn of the release loop: the first closed pair leaves the pool and is released. */
    method ReleaseFirstClosed() returns (found: bool)
      requires Valid() && pool != null
      modifies this`view, this`parts, calls`log, parts
      ensures Valid() && pool != null && parts <= old(parts) && found == Pool.FindClosed(Items(old(view))).Some?
      ensures view == if found then ReleaseAt(old(view), Pool.FindClosed(Items(old(view))).value) else old(view)
    {
      hide PoolIs, FieldsAre, Session.ReleasePair, SwapRemove, Pool.FindClosed;
      var pair, _ := TakeFirstClosed();
      found := pair != null;
      if found {
        ReleasePair(pair);
      }
    }

    /** The release loop of HandleForwards. */
    method ReleaseClosed()
      requires Valid() && pool != null
      modifies this`view, this`parts, calls`log, parts
      ensures Valid() && pool != null && parts <= old(parts) && view == Session.ReleaseClosed(old(view))
    {
      hide PoolIs, FieldsAre, Session.ReleasePair, SwapRemove, Pool.FindClosed;
      while true
        invariant Valid() && pool != null && parts <= old(parts)
        invariant Session.ReleaseClosed(view) == Session.ReleaseClosed(old(view))
        decreases |Items(view)|
      {
        FewerItems(view);
        var found := ReleaseFirstClosed();
        if !found {
          break;
        }
      }
    }

    /** FwPoolDone, and the pool is gone. */
    method DropForwards()
      requires Valid()
      modifies this`view, this`parts, this`pool, calls`log, parts
      ensures Valid() && pool == null && view == DropPool(old(view))
    {
      hide FwPool.Is, Released, DropPool;
      DropPoolLogs(view);
      if pool != null {
        PoolFacts();
        pool.Done(calls, view.pool.items, parts);
        pool := null;
      }
      view := DropPool(view);
    }

    method SessionClose(session: Option<Handle>, channel: Option<Handle>)
      requires Valid()
      modifies this`view, calls`log
      ensures Valid() && view == CloseIfSome(DropIfSome(old(view), channel), session)
    {
      hide PoolIs, FieldsAre, DropIfSome;
      DropChannel(channel);
      if session.Some? {
        Call(SessionFree(session.value));
      }
    }

    /** Everything after the loops. */
    method TearDown()
      requires Valid()
      modifies this`view, this`parts, this`pool, calls`log, parts
      ensures Valid() && view == Session.TearDown(old(view))
    {
      hide PoolIs, FieldsAre, DropIfSome, DropPool;
      DropPoolEmpties(view.(phase := Closing));
      FieldFacts();
      SetPhase(Closing);
      DropForwards();
      SessionClose(haasSession, haasChannel);
      CloseOnlyLogs(DropPool(old(view).(phase := Closing)));
      SessionClose(Some(trapSession), trapChannel);
      SetPhase(Done);
    }

    ghost method SetPhase(phase: Phase)
      requires Valid()
      modifies this`view
      ensures Valid() && view == old(view).(phase := phase)
    {
      hide PoolIs;
      view := view.(phase := phase);
    }

    // -------------------------------------------------------------- events

    /** One more event has happened, from c. */
    ghost method Record(c: Ctx, e: Event)
      requires Legal(Start(mode, poolNew), trace) && c == Run(Start(mode, poolNew), trace)
      requires Enabled(c, e) && view == Next(c, e)
      modifies this`trace
      ensures OnTrace() && trace == old(trace) + [e]
      ensures Polls(trace) == Polls(old(trace)) + (if e.PollForward? then 1 else 0)
    {
      hide Legal, Run, Next, Enabled, Start;
      assert (trace + [e])[..|trace|] == trace;
      Extend(Start(mode, poolNew), trace, e);
      trace := trace + [e];
    }

    /** Whether libssh can make this callback now. */
    method CanHappen(e: Event) returns (b: bool)
      requires Running() && IsCallback(e)
      ensures b == Enabled(view, e)
    {
      hide PoolIs, FwPool.Is, OnTrace, HandleInv;
      b := !error;
      match e
      case TrapData(_, data, wrote) => b := b && trapChannel.Some? && -1 <= wrote <= |data| <= UINT_MAX;
      case HaasData(_, data, wrote) => b := b && haasChannel.Some? && -1 <= wrote <= |data| <= UINT_MAX;
      case Pty(_) => b := b && trapChannel.Some?;
      case Window(_) => b := b && trapChannel.Some?;
      case Shell(_) => b := b && trapChannel.Some?;
      case MainClosed => b := b && trapChannel.Some?;
      case ForwardData(i, fromSource, _, data, wrote) =>
        var pair := PairAtIndex(i);
        b := b && pair != null && -1 <= wrote <= |data| <= UINT_MAX
             && (if fromSource then pair.source.channel.Some? else pair.destiny.channel.Some?);
      case ForwardClosed(i) =>
        var pair := PairAtIndex(i);
        b := b && pair != null;
      case _ =>
    }

    method PairAtIndex(i: nat) returns (pair: FwPair?)
      requires Running()
      ensures if i < |Items(view)| then pair != null && i < |Slots()| && Slots()[i] == pair
              && pair.Value() == Items(view)[i] && pair in parts
              else pair == null
    {
      hide FieldsAre, OnTrace, HandleInv;
      pair := null;
      if pool != null {
        pair := pool.Get(i);
      }
    }

    /** libssh makes a callback. */
    method Deliver(e: Event, request: Request)
      requires Running() && IsCallback(e) && Enabled(view, e)
      modifies this, calls, parts
      ensures Running() && OnlyAdded() && view == Next(old(view), e) && trace == old(trace) + [e]
      ensures Polls(trace) == Polls(old(trace))
      ensures view.phase == old(view).phase && view.sweeping == old(view).sweeping
    {
      hide PoolIs, FieldsAre, FwPool.Is, Legal, Run, Start, Next, HandleInv, Slots, Polls, Enabled;
      ghost var c := view;
      CallbackStep(c, e);
      Dispatch(e, request);
      Record(c, e);
    }

    method Dispatch(e: Event, request: Request)
      requires Running() && IsCallback(e) && Enabled(view, e)
      modifies this`trapChannel, this`haasSession, this`haasChannel, this`authenticated, this`retries, this`error
      modifies this`closed, this`havePty, this`haveShell, this`parts, this`view, calls, parts
      ensures Valid() && OnlyAdded() && view == Next(old(view), e) && trace == old(trace)
    {
      hide PoolIs, FieldsAre, FwPool.Is, OnTrace, HandleInv, DoForwardData, DoNewChannel, DoAuthPassword,
           DoDirectTcpip, WriteTo, MarkClosed;
      if e.AuthPassword? {
        var _ := TrapAuthPassword(e.outcome);
      } else if e.NewChannel? {
        var _ := TrapNewChannel(e.trapNew, e.haasNew, e.openOk);
      } else if e.Pty? {
        var _ := TrapChannelPtyRequest(e.ok);
      } else if e.Window? {
        var _ := TrapChannelPtyWindowChange(e.ok);
      } else if e.Shell? {
        var _ := TrapChannelShellRequest(e.ok);
      } else if e.MainClosed? {
        ChannelCloseCallback();
      } else if e.DirectTcpip? {
        var _ := TrapMessageCallback(request, e.dstNew, e.openOk, e.accepted, e.pairNew, e.reallocated);
      } else if e.ForwardClosed? {
        var pair := PairAtIndex(e.i);
        ForwardChannelCloseCallback(pair, e.i);
      } else {
        DeliverData(e);
      }
    }

    method DeliverData(e: Event)
      requires Running() && IsData(e) && Enabled(view, e)
      modifies this`view, calls`log
      ensures Valid() && view == Next(old(view), e)
    {
      hide PoolIs, FieldsAre, FwPool.Is, Legal, Run, Start, HandleInv, DoForwardData;
      DataPaired(view);
      FieldFacts();
      if e.TrapData? {
        var _ := TrapChannelDataCallback(e.stderr, e.data, e.wrote);
      } else if e.HaasData? {
        var _ := HaasChannelDataCallback(e.stderr, e.data, e.wrote);
      } else {
        var pair := PairAtIndex(e.i);
        var channel := if e.fromSource then pair.source.channel else pair.destiny.channel;
        var session := if e.fromSource then trapSession else haasSession.value;
        var _ := ForwardChannelDataCallback(pair, session, channel.value, e.stderr, e.data, e.wrote, e.i, e.fromSource);
      }
    }

    method OfferCallback(s: Stimulus)
      requires Running() && IsCallback(s.event)
      modifies this, calls, parts
      ensures Running() && OnlyAdded()
      ensures view == if Enabled(old(view), s.event) then Next(old(view), s.event) else old(view)
      ensures trace == if Enabled(old(view), s.event) then old(trace) + [s.event] else old(trace)
      ensures Polls(trace) == Polls(old(trace)) && Behind(old(view), view)
      ensures view.phase == old(view).phase && view.sweeping == old(view).sweeping
    {
      hide Valid, OnTrace, HandleInv, Slots, Next, Enabled, Behind;
      var possible := CanHappen(s.event);
      SamePool(view, view);
      if possible {
        CallbackBehind(view, s.event);
        Deliver(s.event, s.request);
      }
    }

    /** The next stimulus of the script is a callback: the machine takes it too. */
    method OfferNext(script: seq<Stimulus>, next: nat, ghost at: Point)
      requires Running() && next < |script| && IsCallback(script[next].event)
      requires Comes(script, at, next) && Hears(at, view)
      modifies this, calls, parts
      ensures Running() && OnlyAdded() && Comes(script, at, next + 1) && Hears(at, view)
      ensures var e := script[next].event; view == if Enabled(old(view), e) then Next(old(view), e) else old(view)
      ensures Polls(trace) == Polls(old(trace)) && old(trace) <= trace && Behind(old(view), view)
      ensures view.phase == old(view).phase && view.sweeping == old(view).sweeping
    {
      hide Running, Slots, Next, Enabled, Behind, Hears, Reached, Move, Polls, OnlyAdded;
      ghost var m := Moment(at, view, trace, next);
      EventAt(script, next);
      CallbackComes(Events(script), m);
      CallbackMoves(Events(script), m);
      OfferCallback(script[next]);
      MoveReached(Start(mode, poolNew), Events(script), m, Moment(at, view, trace, next + 1));
      StillHears(at, m.c, view);
    }

    /** The callbacks that come before the next outcome of a poll; those that cannot happen now do not. */
    method Callbacks(script: seq<Stimulus>, start: nat, ghost at: Point) returns (next: nat)
      requires Running() && start <= |script| && Comes(script, at, start) && Hears(at, view)
      modifies this, calls, parts
      ensures Running() && OnlyAdded() && start <= next <= |script| && Comes(script, at, next) && Hears(at, view)
      ensures old(trace) <= trace && Behind(old(view), view)
      ensures forall k :: start <= k < next ==> IsCallback(script[k].event)
      ensures next < |script| ==> !IsCallback(script[next].event)
      ensures view == AfterCallbacks(old(view), script[start..next]) && Polls(trace) == Polls(old(trace))
      ensures view.phase == old(view).phase && view.sweeping == old(view).sweeping
    {
      hide Running, Slots, Next, Enabled, Comes, Hears, Behind;
      next := start;
      ghost var c := view;
      assert script[start..start] == [];
      SamePool(c, c);
      while next < |script| && IsCallback(script[next].event)
        invariant Running() && start <= next <= |script|
        invariant forall k :: start <= k < next ==> IsCallback(script[k].event)
        invariant pool == old(pool) && old(Slots()) <= Slots() && fresh(parts - old(parts))
        invariant Polls(trace) == Polls(old(trace)) && old(trace) <= trace
        invariant Comes(script, at, next) && Hears(at, view) && Behind(c, view)
        invariant view == AfterCallbacks(c, script[start..next]) && view.phase == c.phase && view.sweeping == c.sweeping
      {
        OneCallback(c, script, start, next);
        ghost var d := view;
        OfferNext(script, next, at);
        BehindOn(c, d, view);
        next := next + 1;
      }
    }

    // -------------------------------------------------------------- HandleForwards

    /** The object in slot i, and the pair it stands for. */
    lemma InPool(i: nat)
      requires Running() && i < |Slots()|
      ensures |Slots()| == |Items(view)| && Slots()[i] != null && Slots()[i] in parts
      ensures Slots()[i].Value() == Items(view)[i]
    {
    }

    method Poll(pair: FwPair, i: nat, fromSource: bool, eof: bool)
      requires Running() && i < |Slots()| && Slots()[i] == pair && view.phase == Relay
      requires Enabled(view, Event.PollForward(eof))
      requires view.sweeping.i == i && fromSource == view.sweeping.AtSource?
      modifies this`view, this`trace, calls`log, pair
      ensures Running() && view == DoPollForward(old(view), eof) && Polls(trace) == Polls(old(trace)) + 1
      ensures trace == old(trace) + [Event.PollForward(eof)]
    {
      hide PoolIs, FieldsAre, FwPool.Is, Legal, Run, Start, Polls, HandleInv, MarkClosed, UseIfSome, Slots;
      ghost var c := view;
      PollForwardStep(c, eof);
      PollEnd(pair, i, fromSource, eof);
      SetSweeping(DoPollForward(c, eof).sweeping);
      Record(c, Event.PollForward(eof));
    }

    method PollEnd(pair: FwPair, i: nat, fromSource: bool, eof: bool)
      requires Running() && i < |Slots()| && Slots()[i] == pair && i < |Items(view)|
      modifies this`view, calls`log, pair
      ensures Valid()
      ensures var end := if fromSource then Items(old(view))[i].source else Items(old(view))[i].destiny;
              var c1 := UseIfSome(old(view), end);
              view == if end.Some? && eof then MarkClosed(c1, i) else c1
    {
      hide PoolIs, FieldsAre, FwPool.Is, OnTrace, HandleInv, MarkClosed;
      InPool(i);
      var end := if fromSource then pair.source.channel else pair.destiny.channel;
      if end.Some? {
        Call(ChannelUse(end.value));
        if eof {
          ForwardChannelCloseCallback(pair, i);
        }
      }
    }

    ghost method SetSweeping(sweeping: Sweeping)
      requires Valid()
      modifies this`view
      ensures Valid() && view == old(view).(sweeping := sweeping)
    {
      hide PoolIs;
      view := view.(sweeping := sweeping);
    }

    /** What the poll gives when no callback comes first; without a channel there is no poll, and nothing is used. */
    method PollOutcome(pair: FwPair, i: nat, fromSource: bool, script: seq<Stimulus>, start: nat) returns (next: nat)
      requires Running() && view.phase == Relay && i < |Slots()| && Slots()[i] == pair && start <= |script|
      requires PollDue(view) && view.sweeping.i == i && fromSource == view.sweeping.AtSource?
      requires Comes(script, AtForwards, start) && (PolledEnd(view).Some? ==> Silent(Events(script), start))
      modifies this`view, this`trace, calls`log, pair
      ensures Running() && start <= next <= |script| && Comes(script, AtForwards, next)
      ensures exists eof :: trace == old(trace) + [Event.PollForward(eof)] && view == DoPollForward(old(view), eof)
      ensures Polls(trace) == Polls(old(trace)) + 1 && Behind(old(view), view)
    {
      hide PoolIs, FieldsAre, OnTrace, HandleInv, Polls, Reached, Move, DoPollForward, Behind;
      ghost var m, es := Moment(AtForwards, view, trace, start), Events(script);
      InPool(i);
      var end := if fromSource then pair.source.channel else pair.destiny.channel;
      var eof := false;
      next := start;
      EventAt(script, start);
      if end.Some? && next < |script| && script[next].event.PollForward? {
        eof := script[next].event.eof;
        next := next + 1;
      }
      PollMoves(es, m, eof);
      PollBehind(view, eof);
      Poll(pair, i, fromSource, eof);
      MoveReached(Start(mode, poolNew), es, m, Moment(AtForwards, view, trace, next));
    }

    /** One ssh_channel_poll of the poll loop: what it gives, after the callbacks libssh makes inside it. */
    method PollForward(pair: FwPair, i: nat, fromSource: bool, script: seq<Stimulus>, start: nat) returns (next: nat)
      requires Running() && view.phase == Relay && i < |Slots()| && Slots()[i] == pair && start <= |script|
      requires exists count :: i < count <= |Items(view)|
                               && view.sweeping == if fromSource then AtSource(i, count) else AtDestiny(i, count)
      requires Comes(script, AtForwards, start)
      modifies this, calls, parts
      ensures Running() && OnlyAdded() && view.phase == Relay && start <= next <= |script|
      ensures Comes(script, AtForwards, next) && old(trace) <= trace && Behind(old(view), view)
      ensures view.sweeping ==
        if fromSource then AtDestiny(i, old(view).sweeping.count) else AtSource(i + 1, old(view).sweeping.count)
      ensures Polls(trace) == Polls(old(trace)) + 1
    {
      hide Valid, OnTrace, HandleInv, Slots, Polls, AfterCallbacks, Comes, Behind, Next, Enabled;
      next := start;
      ghost var c := view;
      SamePool(c, c);
      InPool(i);
      var end := if fromSource then pair.source.channel else pair.destiny.channel;
      assert PollDue(view) && PolledEnd(view) == end;
      if end.Some? {
        next := Callbacks(script, next, AtForwards);
      }
      ghost var d := view;
      next := PollOutcome(pair, i, fromSource, script, next);
      BehindOn(c, d, view);
    }

    /**
     HandleForwards.  Both ends of every pair that was there are polled; callbacks may close pairs and
     append new ones meanwhile.  `polled` is the state when the polling is over and the release loop
     begins: the pairs that were there are its first ones, what stays in the pool is the open pairs of that
     moment, and what is released, one by one, is the closed ones.
     */
    method HandleForwards(script: seq<Stimulus>, start: nat) returns (next: nat, ghost polled: Ctx)
      requires Running() && view.phase == Relay && view.sweeping.NotPolling? && pool != null && start <= |script|
      requires Comes(script, AtForwards, start)
      modifies this, calls, parts
      ensures Running() && pool == old(pool) && fresh(parts - old(parts)) && start <= next <= |script|
      ensures view.phase == Relay && view.sweeping.NotPolling? && Comes(script, AtPoll, next) && old(trace) <= trace
      ensures |Items(old(view))| == 0 ==> view == polled == old(view) && trace == old(trace) && next == start
      ensures |Items(old(view))| > 0 ==> SweptLast(old(trace), trace, polled) && Behind(old(view), polled)
      ensures |Items(old(view))| > 0 ==>
                && view.log == ReleasedAll(polled.log, Swept(Items(polled))) && Items(view) == Sweep(Items(polled))
                && multiset(Items(view)) == multiset(Open(Items(polled)))
                && multiset(Items(view)) + multiset(Swept(Items(polled))) == multiset(Items(polled))
      ensures |Items(old(view))| > 0 ==> ClosedAreGone()
      ensures Polls(trace) == Polls(old(trace)) + 2 * |Items(old(view))|
    {
      hide Running, Slots, Sweep, Swept, Open, Session.ReleaseClosed, ReleasedAll, OnlyAdded, Comes, Behind, SweptLast,
           ClosedAreGone;
      next, polled := start, view;
      var count := Count();
      if count > 0 {
        ghost var c := view;
        BeginSweep(script, start);
        SamePool(c, view);
        ghost var begun := view;
        next := PollPairs(count, script, next);
        polled := view;
        ghost var polledTrace := trace;
        BehindOn(c, begun, polled);
        EndSweep(script, next);
        SweptLastHere(old(trace), polledTrace, polled);
        Gone(old(trace), polled);
        SweepKeepsOpen(Items(polled));
        ReleaseClosedLogs(polled);
      } else {
        NoForwards(script, start);
      }
    }

    /** Every pair that was closed at any time before is freed, and not in the pool. */
    ghost predicate ClosedAreGone()
      reads this`view, this`trace
    {
      var start := Start(mode, poolNew);
      forall n, p ::
        0 <= n < |trace| && Legal(start, trace[..n]) && Enabled(Run(start, trace[..n]), trace[n])
        && Histories.Closes(Run(start, trace[..n]), trace[n], p) ==>
          PairFree(p.id) in view.log && forall q :: q in Items(view) ==> q.id != p.id
    }

    lemma Gone(before: seq<Event>, c: Ctx)
      requires Running() && SweptLast(before, trace, c)
      ensures ClosedAreGone()
    {
      hide Legal, Run, Start, Enabled, Items;
      var start := Start(mode, poolNew);
      forall n, p | 0 <= n < |trace| && Legal(start, trace[..n]) && Enabled(Run(start, trace[..n]), trace[n])
                    && Histories.Closes(Run(start, trace[..n]), trace[n], p)
        ensures PairFree(p.id) in view.log && forall q :: q in Items(view) ==> q.id != p.id
      {
        assert trace[|trace| - 1] == SweepEnds;
        Histories.ClosedIsReleased(mode, poolNew, start, trace, n, p);
      }
    }

    /** The latest event is the end of a sweep, which began in the state c. */
    ghost predicate SweptLast(before: seq<Event>, es: seq<Event>, c: Ctx) {
      && |es| > |before| && before <= es[..|es| - 1] && es[|es| - 1] == SweepEnds
      && Legal(Start(mode, poolNew), es[..|es| - 1]) && c == Run(Start(mode, poolNew), es[..|es| - 1])
    }

    lemma SweptLastHere(before: seq<Event>, es: seq<Event>, c: Ctx)
      requires before <= es && Legal(Start(mode, poolNew), es) && c == Run(Start(mode, poolNew), es)
      ensures SweptLast(before, es + [SweepEnds], c) && before <= es + [SweepEnds]
    {
      hide Legal, Run;
      assert (es + [SweepEnds])[..|es|] == es;
    }

    /** HandleForwards with nothing to poll. */
    lemma NoForwards(script: seq<Stimulus>, next: nat)
      requires Comes(script, AtForwards, next) && view.sweeping.NotPolling? && Items(view) == []
      ensures Comes(script, AtPoll, next)
    {
      hide Reached, Move;
      var m := Moment(AtForwards, view, trace, next);
      NoForwardsMoves(Events(script), m);
      MoveReached(Start(mode, poolNew), Events(script), m, m.(at := AtPoll));
    }

    /** FwPoolCount. */
    method Count() returns (count: nat)
      requires Running() && pool != null
      ensures count == |Items(view)| == |Slots()|
    {
      hide FieldsAre, OnTrace, HandleInv;
      count := pool.used;
    }

    /** Both ends of the pair at i. */
    method PollPair(i: nat, count: nat, script: seq<Stimulus>, start: nat) returns (next: nat)
      requires Running() && view.phase == Relay && view.sweeping == AtSource(i, count) && i < count <= |Slots()|
      requires start <= |script| && Comes(script, AtForwards, start)
      modifies this, calls, parts
      ensures Running() && OnlyAdded() && start <= next <= |script|
      ensures Comes(script, AtForwards, next) && old(trace) <= trace && Behind(old(view), view)
      ensures view.phase == Relay && view.sweeping == AtSource(i + 1, count) && Polls(trace) == Polls(old(trace)) + 2
    {
      hide Valid, OnTrace, HandleInv, Slots, Comes, Behind, Polls;
      ghost var c := view;
      InPool(i);
      var pair := PairAtIndex(i);
      next := PollForward(pair, i, true, script, start);
      ghost var d := view;
      InPool(i);
      next := PollForward(pair, i, false, script, next);
      BehindOn(c, d, view);
    }

    /** The poll loop, over the pairs that were there when it began. */
    method PollPairs(count: nat, script: seq<Stimulus>, start: nat) returns (next: nat)
      requires Running() && view.phase == Relay && view.sweeping == AtSource(0, count) && count <= |Slots()|
      requires start <= |script| && Comes(script, AtForwards, start)
      modifies this, calls, parts
      ensures Running() && pool == old(pool) && fresh(parts - old(parts)) && start <= next <= |script|
      ensures Comes(script, AtForwards, next) && old(trace) <= trace && Behind(old(view), view)
      ensures view.phase == Relay && view.sweeping == AtSource(count, count)
      ensures Polls(trace) == Polls(old(trace)) + 2 * count
    {
      hide Running, Slots, Comes, Behind, Polls;
      next := start;
      ghost var c := view;
      SamePool(c, c);
      var i := 0;
      while i < count
        invariant Running() && pool == old(pool) && fresh(parts - old(parts)) && start <= next <= |script|
        invariant i <= count <= |Slots()| && view.phase == Relay && view.sweeping == AtSource(i, count)
        invariant Polls(trace) == Polls(old(trace)) + 2 * i && old(trace) <= trace
        invariant Comes(script, AtForwards, next) && Behind(c, view)
      {
        ghost var d := view;
        next := PollPair(i, count, script, next);
        BehindOn(c, d, view);
        i := i + 1;
      }
    }

    ghost method BeginSweep(script: seq<Stimulus>, next: nat)
      requires Running() && view.phase == Relay && view.sweeping.NotPolling? && |Items(view)| > 0
      requires Comes(script, AtForwards, next)
      modifies this`view, this`trace
      ensures Running() && view == old(view).(sweeping := AtSource(0, |Items(view)|))
      ensures Comes(script, AtForwards, next) && trace == old(trace) + [SweepBegins]
      ensures Polls(trace) == Polls(old(trace))
    {
      hide PoolIs, FieldsAre, Legal, Run, Start, PairsShaped, Reached, Move, Polls;
      ghost var c, m := view, Moment(AtForwards, view, trace, next);
      LoopStep(c, SweepBegins);
      BeginMoves(Events(script), m);
      SetSweeping(AtSource(0, |Items(c)|));
      Record(c, SweepBegins);
      MoveReached(Start(mode, poolNew), Events(script), m, Moment(AtForwards, view, trace, next));
    }

    /** The release loop of HandleForwards. */
    method EndSweep(ghost script: seq<Stimulus>, ghost next: nat)
      requires Running() && view.phase == Relay && pool != null && view.sweeping.AtSource?
      requires view.sweeping.i == view.sweeping.count && Comes(script, AtForwards, next)
      modifies this`view, this`parts, this`trace, calls`log, parts
      ensures Running() && pool == old(pool) && parts <= old(parts)
      ensures view == Session.ReleaseClosed(old(view)).(sweeping := NotPolling) && view.phase == Relay
      ensures Comes(script, AtPoll, next) && trace == old(trace) + [SweepEnds]
      ensures Legal(Start(mode, poolNew), old(trace)) && old(view) == Run(Start(mode, poolNew), old(trace))
      ensures Items(view) == Sweep(Items(old(view))) && Polls(trace) == Polls(old(trace))
    {
      hide PoolIs, FieldsAre, Legal, Run, Start, HandleInv, Sweep, Session.ReleaseClosed, Reached, Move, Polls;
      ghost var c, m := view, Moment(AtForwards, view, trace, next);
      LoopStep(c, SweepEnds);
      ReleaseClosedSweeps(c);
      SweepEndsMoves(Events(script), m);
      FieldFacts();
      ReleaseClosed();
      SetSweeping(NotPolling);
      Record(c, SweepEnds);
      MoveReached(Start(mode, poolNew), Events(script), m, Moment(AtPoll, view, trace, next));
    }

    // -------------------------------------------------------------- ProxyProcess

    /**
     What a poll of the event loop comes to: an end (timeout, error, ShouldStop, or no more script),
     EINTR, or a turn.  `heard` is where the script stood when the callbacks had come.
     */
    method PollMain(script: seq<Stimulus>, start: nat, ghost at: Point)
      returns (turn: Option<bool>, next: nat, ghost heard: nat)
      requires Running() && view.sweeping.NotPolling? && start <= |script|
      requires Comes(script, at, start) && (at.AtWait? || at.AtPoll?)
      modifies this, calls, parts
      ensures Running() && OnlyAdded() && view.phase == old(view).phase && view.sweeping.NotPolling?
      ensures start <= heard <= |script| && view == AfterCallbacks(old(view), script[start..heard])
      ensures next == Used(Events(script), heard) && old(trace) <= trace
      ensures turn.Some? ==> Comes(script, at, heard) && Outcome(Events(script), heard, turn.value)
      ensures turn.None? ==> Comes(script, Again(at), next) && heard < |script| && !script[heard].event.PollDone?
    {
      hide Running, Slots, Next, AfterCallbacks, Comes, Events, Behind, Polls, OnlyAdded;
      next := Callbacks(script, start, at);
      heard := next;
      EventAt(script, next);
      if next == |script| {
        turn := Some(true);
      } else {
        turn := if script[next].event.PollDone? then Some(script[next].event.leave) else None;
        if turn.None? {
          Interrupted(script, at, next);
        }
        next := next + 1;
      }
    }

    /** SSH_EINTR: the turn starts again. */
    lemma Interrupted(script: seq<Stimulus>, at: Point, next: nat)
      requires Comes(script, at, next) && (at.AtWait? || at.AtPoll?) && next < |script|
      requires !IsCallback(script[next].event) && !script[next].event.PollDone?
      ensures Comes(script, Again(at), next + 1)
    {
      hide Reached, Move;
      var m := Moment(at, view, trace, next);
      EventAt(script, next);
      InterruptMoves(Events(script), m);
      MoveReached(Start(mode, poolNew), Events(script), m, m.(at := Again(at), next := next + 1));
    }

    /**
     The first event loop; `leave` is why it ended without a relay, if closed was not.  The outcome that
     ended it is at `heard` in the script, and has not been acted on.
     */
    method WaitLoop(script: seq<Stimulus>, start: nat) returns (relay: bool, leave: bool, next: nat, ghost heard: nat)
      requires Running() && view.phase == Wait && view.sweeping.NotPolling? && start <= |script|
      requires Comes(script, AtWait, start)
      modifies this, calls, parts
      ensures Running() && fresh(parts - old(parts)) && view.phase == Wait && view.sweeping.NotPolling?
      ensures start <= heard <= |script| && next == Used(Events(script), heard) && old(trace) <= trace
      ensures Comes(script, AtWait, heard) && Outcome(Events(script), heard, leave)
      ensures relay == (!leave && !view.closed) && (leave ==> Stopped(script, next))
      ensures relay ==> view.trapChannel.Some? && view.authenticated
    {
      hide Valid, OnTrace, HandleInv, Slots, Next, Comes, Events, AfterCallbacks;
      relay, leave, next, heard := false, false, start, start;
      while true
        invariant Running() && fresh(parts - old(parts)) && view.phase == Wait && view.sweeping.NotPolling?
        invariant start <= next <= |script| && Comes(script, AtWait, next) && old(trace) <= trace
        decreases |script| - next
      {
        var turn;
        turn, next, heard := PollMain(script, next, AtWait);
        EventAt(script, heard);
        if turn.Some? {
          LoopFacts();
          leave := turn.value;
          if leave || closed {
            relay := false;
            break;
          }
          relay := trapChannel.Some? && authenticated;
          if relay {
            break;
          }
          Stay(script, AtWait, heard);
        }
      }
    }

    lemma LoopFacts()
      requires Running()
      ensures closed == view.closed && trapChannel == view.trapChannel && authenticated == view.authenticated
      ensures haasSession == view.haasSession && haasChannel == view.haasChannel && trapSession == view.trapSession
      ensures ChannelsPaired(view) && (pool == null <==> view.pool.NoPool?)
    {
    }

    /** The outcome of a poll has been acted on, from c. */
    ghost method Settle(c: Ctx, leave: bool, script: seq<Stimulus>, at: Point, heard: nat)
      requires Legal(Start(mode, poolNew), trace) && c == Run(Start(mode, poolNew), trace)
      requires Reached(Start(mode, poolNew), Events(script), Moment(at, c, trace, heard))
      requires (at.AtWait? || at.AtPoll?) && Outcome(Events(script), heard, leave)
      requires Enabled(c, PollDone(leave)) && view == Next(c, PollDone(leave))
      modifies this`trace
      ensures OnTrace() && trace == old(trace) + [PollDone(leave)]
      ensures Comes(script, LoopOf(view), Used(Events(script), heard))
    {
      hide Legal, Run, Next, Enabled, Start, Reached, Move, LoopOf, Events;
      ghost var m := Moment(at, c, trace, heard);
      PollDoneMoves(Events(script), m, leave);
      Record(c, PollDone(leave));
      MoveReached(Start(mode, poolNew), Events(script), m,
                  Moment(LoopOf(view), view, trace, Used(Events(script), heard)));
    }

    /** A turn of either loop after which it goes on. */
    ghost method Stay(script: seq<Stimulus>, at: Point, heard: nat)
      requires Running() && (view.phase == Wait || view.phase == Relay) && view.sweeping.NotPolling? && !view.closed
      requires view.phase == Wait ==> view.trapChannel.None? || !view.authenticated
      requires Comes(script, at, heard) && (at.AtWait? || at.AtPoll?) && Outcome(Events(script), heard, false)
      modifies this`trace
      ensures Running() && trace == old(trace) + [PollDone(false)]
      ensures Comes(script, LoopOf(view), Used(Events(script), heard))
    {
      hide PoolIs, FieldsAre, Legal, Run, Start, HandleInv, Reached, Events;
      Settle(view, false, script, at, heard);
    }

    method EnterRelay(ghost script: seq<Stimulus>, ghost heard: nat)
      requires Running() && view.phase == Wait && view.sweeping.NotPolling?
      requires !view.closed && view.trapChannel.Some? && view.authenticated
      requires Comes(script, AtWait, heard) && Outcome(Events(script), heard, false)
      modifies this`view, this`trace, calls`log
      ensures Running() && view.phase == Relay && view.sweeping.NotPolling? && old(trace) <= trace
      ensures Comes(script, AtTop, Used(Events(script), heard))
    {
      hide PoolIs, FieldsAre, Legal, Run, Start, PairsShaped, Reached, Events;
      ghost var c := view;
      LoopFacts();
      LoopStep(c, PollDone(false));
      Call(EventAdd(haasSession.value));
      SetPhase(Relay);
      Settle(c, false, script, AtWait, heard);
    }

    /** The two polls that open a turn of the relay loop. */
    method PollChannels(ghost script: seq<Stimulus>, ghost next: nat)
      requires Running() && view.phase == Relay && view.sweeping.NotPolling?
      requires Comes(script, AtTop, next) && Silent(Events(script), next)
      modifies this`view, this`trace, calls`log
      ensures Running() && view.phase == Relay && view.sweeping.NotPolling? && old(trace) <= trace
      ensures Comes(script, AtForwards, next) && trapChannel.Some? && haasChannel.Some?
      ensures calls.log == old(calls.log) + [ChannelUse(trapChannel.value)] + [ChannelUse(haasChannel.value)]
    {
      hide PoolIs, FieldsAre, Legal, Run, Start, PairsShaped, Reached, Move, Events;
      ghost var c, m := view, Moment(AtTop, view, trace, next);
      LoopFacts();
      LoopStep(c, RelayTop);
      TopMoves(Events(script), m);
      LogIs();
      Call(ChannelUse(trapChannel.value));
      Call(ChannelUse(haasChannel.value));
      LogIs();
      Record(c, RelayTop);
      MoveReached(Start(mode, poolNew), Events(script), m, Moment(AtForwards, view, trace, next));
    }

    /** The callbacks before the polls of a turn, the polls, and HandleForwards when there is a pool. */
    method ServeForwards(script: seq<Stimulus>, start: nat) returns (next: nat)
      requires Running() && view.phase == Relay && view.sweeping.NotPolling? && start <= |script|
      requires Comes(script, AtTop, start)
      modifies this, calls, parts
      ensures Running() && fresh(parts - old(parts)) && view.phase == Relay && view.sweeping.NotPolling?
      ensures start <= next <= |script| && Comes(script, AtPoll, next) && old(trace) <= trace
    {
      hide Running, HandleInv, Slots, Next, AfterCallbacks, Sweep, Swept, Open, ReleasedAll, Polls, Items, Comes,
           Events, Behind, SweptLast;
      next := Callbacks(script, start, AtTop);
      EventAt(script, next);
      PollChannels(script, next);
      if pool != null {
        ghost var polled;
        next, polled := HandleForwards(script, next);
      } else {
        NoPoolNoForwards();
        NoForwards(script, next);
      }
    }

    lemma NoPoolNoForwards()
      requires Running() && pool == null
      ensures Items(view) == []
    {
    }

    /** A turn of the relay loop; `over` is whether it leaves the loop, and `leave` whether the poll asked for that. */
    method RelayTurn(script: seq<Stimulus>, start: nat)
      returns (over: bool, leave: bool, next: nat, ghost heard: nat)
      requires Running() && view.phase == Relay && view.sweeping.NotPolling? && start <= |script|
      requires Comes(script, AtTop, start)
      modifies this, calls, parts
      ensures Running() && fresh(parts - old(parts)) && view.phase == Relay && view.sweeping.NotPolling?
      ensures start <= heard <= |script| && next == Used(Events(script), heard) && old(trace) <= trace
      ensures over ==> (leave || view.closed) && Comes(script, AtPoll, heard) && Outcome(Events(script), heard, leave)
      ensures !over ==> !leave && start < next && Comes(script, AtTop, next)
    {
      hide Running, HandleInv, Slots, Next, AfterCallbacks, Comes, Events;
      over, leave := false, false;
      next := ServeForwards(script, start);
      var turn;
      turn, next, heard := PollMain(script, next, AtPoll);
      EventAt(script, heard);
      if turn.Some? {
        LoopFacts();
        leave := turn.value;
        over := leave || closed;
        if !over {
          Stay(script, AtPoll, heard);
        }
      }
    }

    /** The second event loop; the outcome that ended it is at `heard` in the script, and has not been acted on. */
    method RelayLoop(script: seq<Stimulus>, start: nat) returns (leave: bool, next: nat, ghost heard: nat)
      requires Running() && view.phase == Relay && view.sweeping.NotPolling? && start <= |script|
      requires Comes(script, AtTop, start)
      modifies this, calls, parts
      ensures Running() && fresh(parts - old(parts)) && view.phase == Relay && view.sweeping.NotPolling?
      ensures start <= heard <= |script| && next == Used(Events(script), heard) && old(trace) <= trace
      ensures Comes(script, AtPoll, heard) && Outcome(Events(script), heard, leave)
      ensures (leave || view.closed) && (leave ==> Stopped(script, next))
    {
      hide Running, HandleInv, Slots, Comes, Events, Outcome;
      leave, next, heard := false, start, start;
      while true
        invariant Running() && fresh(parts - old(parts)) && view.phase == Relay && view.sweeping.NotPolling?
        invariant start <= next <= |script| && Comes(script, AtTop, next) && old(trace) <= trace
        decreases |script| - next
      {
        var over;
        over, leave, next, heard := RelayTurn(script, next);
        EventAt(script, heard);
        if over {
          OutcomeStops(script, heard, leave);
          break;
        }
      }
    }

    /** The end after the first loop, and after the second. */
    method EndWait(leave: bool, ghost script: seq<Stimulus>, ghost heard: nat)
      requires Running() && view.phase == Wait && view.sweeping.NotPolling? && (leave || view.closed)
      requires Comes(script, AtWait, heard) && Outcome(Events(script), heard, leave)
      modifies this`view, this`parts, this`pool, this`trace, calls`log, parts
      ensures Valid() && OnTrace() && view.phase == Done && closed == old(closed) && old(trace) <= trace
      ensures Comes(script, AtEnd, Used(Events(script), heard))
    {
      hide PoolIs, FieldsAre, Legal, Run, Start, HandleInv, Session.TearDown, Reached, Events;
      ghost var c := view;
      LoopFacts();
      LeavingIsDone(c);
      Call(EventRemove(trapSession));
      TearDown();
      Settle(c, leave, script, AtWait, heard);
    }

    method EndRelay(leave: bool, ghost script: seq<Stimulus>, ghost heard: nat)
      requires Running() && view.phase == Relay && view.sweeping.NotPolling? && (leave || view.closed)
      requires Comes(script, AtPoll, heard) && Outcome(Events(script), heard, leave)
      modifies this`view, this`parts, this`pool, this`trace, calls`log, parts
      ensures Valid() && OnTrace() && view.phase == Done && closed == old(closed) && old(trace) <= trace
      ensures Comes(script, AtEnd, Used(Events(script), heard))
    {
      hide PoolIs, FieldsAre, Legal, Run, Start, HandleInv, Session.TearDown, Reached, Events;
      ghost var c := view;
      LoopFacts();
      LeavingIsDone(c);
      Call(EventRemove(haasSession.value));
      Call(EventRemove(trapSession));
      TearDown();
      Settle(c, leave, script, AtPoll, heard);
    }

    /** ssh_handle_key_exchange over: either the first loop is set up, or the session is torn down. */
    method EndKex(ok: bool, ghost script: seq<Stimulus>, ghost heard: nat)
      requires Running() && view.phase == Kex
      requires Comes(script, AtKex, heard) && Silent(Events(script), heard)
      requires ok == (heard < |script| && script[heard].event == KexDone(true))
      modifies this`view, this`parts, this`pool, this`trace, calls`log, parts
      ensures Valid() && OnTrace() && old(trace) <= trace
      ensures Comes(script, if ok then AtWait else AtEnd, Used(Events(script), heard))
      ensures if ok then Running() && parts == old(parts) && view.phase == Wait && view.sweeping.NotPolling?
              else view.phase == Done
    {
      hide PoolIs, FieldsAre, Legal, Run, Start, PairsShaped, Session.TearDown, Reached, Move, Events;
      ghost var c := view;
      LoopFacts();
      LoopStep(c, KexDone(ok));
      LeavingIsDone(c);
      if ok {
        Call(EventAdd(trapSession));
        SetPhase(Wait);
      } else {
        TearDown();
      }
      SettleKex(c, ok, script, heard);
    }

    /** The key exchange is over, from c. */
    ghost method SettleKex(c: Ctx, ok: bool, script: seq<Stimulus>, heard: nat)
      requires Legal(Start(mode, poolNew), trace) && c == Run(Start(mode, poolNew), trace)
      requires Reached(Start(mode, poolNew), Events(script), Moment(AtKex, c, trace, heard))
      requires Silent(Events(script), heard) && ok == (heard < |script| && script[heard].event == KexDone(true))
      requires Enabled(c, KexDone(ok)) && view == Next(c, KexDone(ok))
      modifies this`trace
      ensures OnTrace() && trace == old(trace) + [KexDone(ok)]
      ensures Comes(script, if ok then AtWait else AtEnd, Used(Events(script), heard))
    {
      hide Legal, Run, Next, Enabled, Start, Reached, Move, Events;
      ghost var m := Moment(AtKex, c, trace, heard);
      EventAt(script, heard);
      KexMoves(Events(script), m, ok);
      Record(c, KexDone(ok));
      MoveReached(Start(mode, poolNew), Events(script), m,
                  Moment(if ok then AtWait else AtEnd, view, trace, Used(Events(script), heard)));
    }

    /**
     A whole connection.  Whatever the script, the run is the one the machine makes of it: it comes to the
     machine's end, with its trace and with as much of the script used.  So it ends only for a reason: the
     key exchange failed, the poll was told to leave, or a channel closed.  Its calls are those of a run of
     the transition system, and everything was given back exactly once if and only if that run had no
     hazard.
     */
    method ProxyProcess(script: seq<Stimulus>) returns (kex: bool, next: nat)
      requires Running() && view.phase == Kex && trace == []
      modifies this, calls, parts
      ensures OnTrace() && view.phase == Done && calls.log == Run(Start(mode, poolNew), trace).log
      ensures next <= |script| && Comes(script, AtEnd, next)
      ensures if kex then closed || Stopped(script, next) else KexFailed(script, next)
      ensures HazardFree(Start(mode, poolNew), trace) <==> Balanced(calls.log)
    {
      hide Valid, HandleInv, Slots, Legal, Run, Start, Next, Balanced, HazardFree, Comes, Events, Outcome, Behind;
      Starts(script);
      next := Callbacks(script, 0, AtKex);
      ghost var heard := next;
      EventAt(script, heard);
      kex := next < |script| && script[next].event == KexDone(true);
      next := if next < |script| then next + 1 else next;
      EndKex(kex, script, heard);
      if kex {
        var relay, leave;
        relay, leave, next, heard := WaitLoop(script, next);
        EventAt(script, heard);
        if relay {
          EnterRelay(script, heard);
          leave, next, heard := RelayLoop(script, next);
          EventAt(script, heard);
          LoopFacts();
          EndRelay(leave, script, heard);
        } else {
          LoopFacts();
          EndWait(leave, script, heard);
        }
      }
      LogIs();
      BalancedIffHazardFree(mode, poolNew, Start(mode, poolNew), trace);
    }

    lemma Starts(script: seq<Stimulus>)
      requires Running() && trace == []
      ensures Comes(script, AtKex, 0)
    {
      hide Reached;
      FirstReached(view, Events(script));
    }

    lemma LogIs()
      requires Valid()
      ensures calls.log == view.log && calls.next == view.next
    {
    }
  }

  /** From ssh_new to the end of ProxyProcess, on a context of its own; the run is the machine's on this script. */
  method Connection(mode: Mode, poolNew: bool, script: seq<Stimulus>)
    returns (calls: Calls, next: nat, ghost trace: seq<Event>)
    ensures fresh(calls) && Legal(Start(mode, poolNew), trace) && next <= |script|
    ensures Reached(Start(mode, poolNew), Events(script),
                    Moment(AtEnd, Run(Start(mode, poolNew), trace), trace, next))
    ensures Run(Start(mode, poolNew), trace).phase == Done && calls.log == Run(Start(mode, poolNew), trace).log
    ensures HazardFree(Start(mode, poolNew), trace) <==> Balanced(calls.log)
  {
    hide HandleInv, Start, Legal, Run, Balanced, HazardFree, Reached, Events;
    var context := new SshContext(mode, poolNew);
    context.Begun();
    var kex;
    kex, next := context.ProxyProcess(script);
    calls, trace := context.calls, context.trace;
  }

  /** The script was at its end, or its latest outcome told the poll to leave. */
  predicate Stopped(script: seq<Stimulus>, next: nat) {
    next == |script| || (0 < next <= |script| && script[next - 1].event == PollDone(true))
  }

  /** What a request comes to in DENY and, if accepted, in FAKE; and when there is a far channel. */
  lemma RequestSpelled(c: Ctx, dstNew: bool, openOk: bool, pairNew: bool, reallocated: bool)
    ensures OpenFar(c, dstNew, openOk).accept == (c.mode == Allow ==> c.haasSession.Some? && dstNew && openOk)
    ensures c.mode == Fake ==>
              DoDirectTcpip(c, dstNew, openOk, true, pairNew, reallocated)
              == c.(log := c.log + [ChannelNew(c.next, c.trapSession), ChannelUse(c.next), ChannelFree(c.next)],
                    next := c.next + 1)
  {
    hide DoDirectTcpip;
    if c.mode == Fake {
      Effects.FakeCalls(c, dstNew, openOk, pairNew, reallocated);
    }
  }

  lemma OutcomeStops(script: seq<Stimulus>, heard: nat, leave: bool)
    requires heard <= |script| && Outcome(Events(script), heard, leave)
    ensures leave ==> Stopped(script, Used(Events(script), heard))
  {
    EventAt(script, heard);
  }

  predicate KexFailed(script: seq<Stimulus>, next: nat) {
    next == |script| || (0 < next <= |script| && var e := script[next - 1].event; !IsCallback(e) && e != KexDone(true))
  }

  /** How many ends of forwards have been polled. */
  function Polls(es: seq<Event>): nat {
    if es == [] then 0 else Polls(es[..|es| - 1]) + (if es[|es| - 1].PollForward? then 1 else 0)
  }

  /** The state once the callbacks of a script have come, those that can. */
  function AfterCallbacks(c: Ctx, script: seq<Stimulus>): Ctx
    decreases |script|
  {
    if script == [] then c
    else
      var d := AfterCallbacks(c, script[..|script| - 1]);
      var e := script[|script| - 1].event;
      if IsCallback(e) && Enabled(d, e) then Next(d, e) else d
  }

  lemma OneCallback(c: Ctx, script: seq<Stimulus>, start: nat, next: nat)
    requires start <= next < |script| && IsCallback(script[next].event)
    ensures var d, e := AfterCallbacks(c, script[start..next]), script[next].event;
            AfterCallbacks(c, script[start..next + 1]) == if Enabled(d, e) then Next(d, e) else d
  {
    hide Next, Enabled;
    var s := script[start..next + 1];
    assert s[..|s| - 1] == script[start..next];
  }

  lemma DataPaired(c: Ctx)
    requires HandleInv(c)
    ensures ChannelsPaired(c)
    ensures forall i :: 0 <= i < |Items(c)| && Items(c)[i].destiny.Some? ==> c.haasSession.Some?
  {
    forall i | 0 <= i < |Items(c)| && Items(c)[i].destiny.Some?
      ensures c.haasSession.Some?
    {
      assert Items(c)[i] in Items(c);
    }
  }

  function Events(script: seq<Stimulus>): seq<Event> { seq(|script|, k requires 0 <= k < |script| => script[k].event) }

  lemma EventAt(script: seq<Stimulus>, k: nat)
    ensures |Events(script)| == |script| && (k < |script| ==> Events(script)[k] == script[k].event)
  {
  }

  lemma CallbackComes(script: seq<Event>, m: Moment)
    requires Hears(m.at, m.c) && m.next < |script| && IsCallback(script[m.next])
    ensures CallbackNext(script, m)
  {
  }

  /** What the environment does next: an event, and the request it carries if it is a direct-tcpip one. */
  datatype Stimulus = Stimulus(event: Event, request: Request)

  /** The addresses of a direct-tcpip request (RFC 4254, section 7.2). */
  datatype Request = Request(originator: string, originatorPort: int, destination: string, destinationPort: int)
}
