/**
 The books of a session: what the log of calls leaves live is exactly what the context holds, so
 every handle is released exactly once - and exactly when no hazard occurs on the way.
 */
module Release {
  import opened Common
  import opened Ledger
  import opened Pool
  import opened Session
  import opened Handles

  // ---------------------------------------------------------------- what a context holds

  function One(h: Option<Handle>, s: Handle): map<Handle, Handle> { if h.Some? then map[h.value := s] else map[] }

  function MainChannels(c: Ctx): map<Handle, Handle> {
    One(c.trapChannel, c.trapSession) + (if c.haasSession.Some? then One(c.haasChannel, c.haasSession.value) else map[])
  }

  function EndMap(p: Pair, trap: Handle, haas: Option<Handle>): map<Handle, Handle> {
    One(p.source, trap) + (if haas.Some? then One(p.destiny, haas.value) else map[])
  }

  function PoolChannels(items: seq<Pair>, trap: Handle, haas: Option<Handle>): map<Handle, Handle> {
    if items == [] then map[]
    else PoolChannels(items[..|items| - 1], trap, haas) + EndMap(items[|items| - 1], trap, haas)
  }

  function PoolIds(items: seq<Pair>): set<Handle> { set p | p in items :: p.id }

  function Sessions(c: Ctx): set<Handle> {
    {c.trapSession} + (if c.haasSession.Some? then {c.haasSession.value} else {})
  }

  function Watched(c: Ctx): set<Handle> {
    match c.phase
    case Kex => {}
    case Wait => {c.trapSession}
    case Relay => Sessions(c)
    case Closing | Done => {}
  }

  /** Channels owned by different pairs differ, and a pair's two ends differ. */
  predicate Apart(items: seq<Pair>, trap: Handle, haas: Option<Handle>) {
    && (forall p, q :: p in items && q in items && p != q ==>
          p.id != q.id && EndMap(p, trap, haas).Keys !! EndMap(q, trap, haas).Keys)
    && (forall p :: p in items ==>
          multiset(items)[p] == 1 && (p.source.Some? && p.destiny.Some? ==> p.source != p.destiny))
    && (forall p :: p in items && p.destiny.Some? ==> haas.Some?)
  }

  predicate Separate(c: Ctx) {
    && Apart(Items(c), c.trapSession, c.haasSession)
    && MainChannels(c).Keys !! PoolChannels(Items(c), c.trapSession, c.haasSession).Keys
    && (c.trapChannel.Some? ==> c.trapChannel != c.haasChannel)
    && c.haasSession != Some(c.trapSession)
  }

  /** The books b say that precisely what c holds is live. */
  predicate Agrees(b: Books, c: Ctx) {
    && b.ok && WellKept(b) && b.issued <= c.next
    && b.sessions == Sessions(c)
    && b.channels == MainChannels(c) + PoolChannels(Items(c), c.trapSession, c.haasSession)
    && b.pairs == PoolIds(Items(c))
    && b.watched == Watched(c)
  }

  predicate InOrder(c: Ctx) { Agrees(Replay(c.log), c) && Separate(c) }

  // ---------------------------------------------------------------- the books after each call

  lemma LogBooks(c: Ctx, op: Op)
    ensures Replay(Log(c, op).log) == Post(Replay(c.log), op)
  {
    assert (c.log + [op])[..|c.log|] == c.log;
  }

  lemma OpenChannelBooks(c: Ctx, s: Handle)
    requires var b := Replay(c.log); b.ok && WellKept(b) && b.issued <= c.next && s in b.sessions
    ensures var b := Replay(c.log);
            var d := Replay(OpenChannel(c, s).log);
            d == b.(channels := b.channels[c.next := s], issued := c.next + 1) && WellKept(d) && c.next !in b.channels
  {
    LogBooks(c, ChannelNew(c.next, s));
    WellKeptStep(Replay(c.log), ChannelNew(c.next, s));
  }

  lemma OpenSessionBooks(c: Ctx)
    requires var b := Replay(c.log); b.ok && WellKept(b) && b.issued <= c.next
    ensures var b := Replay(c.log);
            var d := Replay(OpenSession(c).log);
            d == b.(sessions := b.sessions + {c.next}, issued := c.next + 1) && WellKept(d) && c.next !in b.sessions
  {
    LogBooks(c, SessionNew(c.next));
    WellKeptStep(Replay(c.log), SessionNew(c.next));
  }

  function Without(b: Books, hs: set<Handle>): Books { b.(channels := b.channels - hs) }

  function Opt(h: Option<Handle>): set<Handle> { if h.Some? then {h.value} else {} }

  lemma DropBooks(c: Ctx, h: Option<Handle>)
    requires var b := Replay(c.log); b.ok && WellKept(b) && Opt(h) <= b.channels.Keys
    ensures Replay(DropIfSome(c, h).log) == Without(Replay(c.log), Opt(h))
    ensures WellKept(Without(Replay(c.log), Opt(h)))
  {
    if h.Some? {
      LogBooks(c, ChannelUse(h.value));
      LogBooks(Log(c, ChannelUse(h.value)), ChannelFree(h.value));
    } else {
      assert Replay(c.log).channels - {} == Replay(c.log).channels;
    }
  }

  lemma ReleasePairBooks(c: Ctx, p: Pair)
    requires var b := Replay(c.log);
             && b.ok && WellKept(b) && Opt(p.source) <= b.channels.Keys && Opt(p.destiny) <= b.channels.Keys
             && p.id in b.pairs
    requires p.source.Some? && p.destiny.Some? ==> p.source != p.destiny
    ensures var b := Replay(c.log);
            var d := Replay(ReleasePair(c, p).log);
            d == b.(channels := b.channels - (Opt(p.source) + Opt(p.destiny)), pairs := b.pairs - {p.id}) && WellKept(d)
  {
    hide DropIfSome, Replay;
    var b := Replay(c.log);
    DropBooks(c, p.source);
    var c1 := DropIfSome(c, p.source);
    DropBooks(c1, p.destiny);
    var c2 := DropIfSome(c1, p.destiny);
    LogBooks(c2, PairFree(p.id));
    assert b.channels - Opt(p.source) - Opt(p.destiny) == b.channels - (Opt(p.source) + Opt(p.destiny));
    WellKeptStep(Replay(c2.log), PairFree(p.id));
  }

  // ---------------------------------------------------------------- the channels of a pool

  lemma {:induction false} PoolChannelsAt(items: seq<Pair>, trap: Handle, haas: Option<Handle>, h: Handle)
    ensures h in PoolChannels(items, trap, haas) <==> exists p :: p in items && h in EndMap(p, trap, haas)
  {
    if items != [] {
      var init, last := items[..|items| - 1], items[|items| - 1];
      PoolChannelsAt(init, trap, haas, h);
      assert items == init + [last];
      assert forall p :: p in items <==> p in init || p == last;
    }
  }

  lemma {:induction false} PoolChannelOf(items: seq<Pair>, trap: Handle, haas: Option<Handle>, p: Pair, h: Handle)
    requires Apart(items, trap, haas) && p in items && h in EndMap(p, trap, haas)
    ensures h in PoolChannels(items, trap, haas) && PoolChannels(items, trap, haas)[h] == EndMap(p, trap, haas)[h]
  {
    var init, last := items[..|items| - 1], items[|items| - 1];
    assert items == init + [last];
    if p != last {
      assert p in init;
      ApartPart(items, init, trap, haas);
      PoolChannelOf(init, trap, haas, p, h);
    }
  }

  lemma ApartPart(items: seq<Pair>, part: seq<Pair>, trap: Handle, haas: Option<Handle>)
    requires Apart(items, trap, haas) && multiset(part) <= multiset(items)
    ensures Apart(part, trap, haas)
  {
    var some, all := multiset(part), multiset(items);
    forall p | p in part
      ensures p in items && some[p] == 1
    {
      assert p in some && some[p] <= all[p];
      assert p in all;
    }
  }

  /** Whether a handle is among the channels of a pool, before and after one pair left it. */
  lemma ChannelRemains(items: seq<Pair>, rest: seq<Pair>, p: Pair, trap: Handle, haas: Option<Handle>, h: Handle)
    requires Apart(items, trap, haas) && Apart(rest, trap, haas) && p in items
    requires forall q :: q in rest <==> q in items && q != p
    ensures var before, after := PoolChannels(items, trap, haas), PoolChannels(rest, trap, haas);
            && (h in after <==> h in before && h !in EndMap(p, trap, haas)) && (h in after ==> after[h] == before[h])
            && (h in EndMap(p, trap, haas) ==> h in before)
  {
    hide PoolChannels, EndMap;
    PoolChannelsAt(items, trap, haas, h);
    PoolChannelsAt(rest, trap, haas, h);
    if h in PoolChannels(rest, trap, haas) {
      var q :| q in rest && h in EndMap(q, trap, haas);
      PoolChannelOf(items, trap, haas, q, h);
      PoolChannelOf(rest, trap, haas, q, h);
    }
  }

  /** Taking one pair out of the pool, wherever the others end up. */
  lemma RemoveOne(items: seq<Pair>, rest: seq<Pair>, p: Pair, trap: Handle, haas: Option<Handle>)
    requires Apart(items, trap, haas) && p in items && multiset(rest) == multiset(items) - multiset{p}
    ensures Apart(rest, trap, haas)
    ensures PoolIds(rest) == PoolIds(items) - {p.id}
    ensures PoolChannels(rest, trap, haas) == PoolChannels(items, trap, haas) - EndMap(p, trap, haas).Keys
    ensures EndMap(p, trap, haas).Keys <= PoolChannels(items, trap, haas).Keys && p.id in PoolIds(items)
  {
    hide PoolChannels, EndMap, PoolIds;
    ApartPart(items, rest, trap, haas);
    OthersRemain(items, rest, p);
    IdsRemain(items, rest, p);
    var before, after := PoolChannels(items, trap, haas), PoolChannels(rest, trap, haas);
    forall h: Handle
      ensures (h in after <==> h in before && h !in EndMap(p, trap, haas)) && (h in after ==> after[h] == before[h])
      ensures h in EndMap(p, trap, haas) ==> h in before
    {
      ChannelRemains(items, rest, p, trap, haas, h);
    }
  }

  lemma OthersRemain(items: seq<Pair>, rest: seq<Pair>, p: Pair)
    requires p in items && multiset(items)[p] == 1 && multiset(rest) == multiset(items) - multiset{p}
    ensures forall q :: q in rest <==> q in items && q != p
  {
    forall q
      ensures q in rest <==> q in items && q != p
    {
      assert q in rest <==> q in multiset(rest);
      assert q in items <==> q in multiset(items);
    }
  }

  lemma IdsRemain(items: seq<Pair>, rest: seq<Pair>, p: Pair)
    requires p in items && (forall q :: q in rest <==> q in items && q != p)
    requires forall q :: q in items && q != p ==> q.id != p.id
    ensures PoolIds(rest) == PoolIds(items) - {p.id} && p.id in PoolIds(items)
  {
  }

  /** Marking a pair closed changes neither channels nor ids. */
  lemma {:induction false} ClosedChangesNothing(items: seq<Pair>, i: nat, trap: Handle, haas: Option<Handle>)
    requires i < |items|
    ensures PoolChannels(CloseAt(items, i), trap, haas) == PoolChannels(items, trap, haas)
  {
    var last := |items| - 1;
    if i < last {
      ClosedChangesNothing(items[..last], i, trap, haas);
      assert CloseAt(items, i)[..last] == CloseAt(items[..last], i);
    } else {
      assert CloseAt(items, i)[..last] == items[..last];
    }
  }

  // ---------------------------------------------------------------- every event without a hazard keeps the books

  /** d holds what c holds, though flags and counters may differ. */
  predicate SameHoldings(c: Ctx, d: Ctx) {
    && d.phase == c.phase && d.pool == c.pool && d.next >= c.next
    && d.trapSession == c.trapSession && d.trapChannel == c.trapChannel
    && d.haasSession == c.haasSession && d.haasChannel == c.haasChannel
  }

  lemma SameBooks(b: Books, c: Ctx, d: Ctx)
    requires Agrees(b, c) && Separate(c) && SameHoldings(c, d)
    ensures Agrees(b, d) && Separate(d)
  {
    assert Items(d) == Items(c);
  }

  /** One more call that neither opens nor frees. */
  lemma CallKeeps(c: Ctx, op: Op, d: Ctx)
    requires InOrder(c) && SameHoldings(c, d) && d.log == c.log + [op]
    requires Allowed(Replay(c.log), op) && Born(op).None? && Ended(op).None? && !op.EventAdd? && !op.EventRemove?
    ensures InOrder(d)
  {
    LogBooks(c, op);
    SameBooks(Replay(c.log), c, d);
  }

  lemma MainIsLive(c: Ctx)
    requires InOrder(c) && ChannelsPaired(c)
    ensures var b := Replay(c.log);
            && c.trapSession in b.sessions
            && (c.haasSession.Some? ==> c.haasSession.value in b.sessions)
            && (c.trapChannel.Some? ==>
                  c.trapChannel.value in b.channels && b.channels[c.trapChannel.value] == c.trapSession)
            && (c.haasChannel.Some? ==>
                  c.haasChannel.value in b.channels && b.channels[c.haasChannel.value] == c.haasSession.value)
  {
    var main, pool := MainChannels(c), PoolChannels(Items(c), c.trapSession, c.haasSession);
    assert forall h :: h in main ==> (main + pool)[h] == main[h];
  }

  lemma EndsAreLive(c: Ctx, p: Pair)
    requires InOrder(c) && p in Items(c)
    ensures var b := Replay(c.log);
            && (p.source.Some? ==> p.source.value in b.channels && b.channels[p.source.value] == c.trapSession)
            && (p.destiny.Some? ==> c.haasSession.Some? && p.destiny.value in b.channels
                                    && b.channels[p.destiny.value] == c.haasSession.value)
            && p.id in b.pairs
  {
    hide Replay, WellKept, PoolChannels, MainChannels, EndMap, Watched, Sessions;
    var ends := EndMap(p, c.trapSession, c.haasSession);
    forall h | h in ends
      ensures h in Replay(c.log).channels && Replay(c.log).channels[h] == ends[h]
    {
      PoolChannelOf(Items(c), c.trapSession, c.haasSession, p, h);
    }
    EndMapOf(p, c.trapSession, c.haasSession);
  }

  lemma EndMapOf(p: Pair, trap: Handle, haas: Option<Handle>)
    requires p.destiny.Some? ==> haas.Some?
    requires p.source.Some? && p.destiny.Some? ==> p.source != p.destiny
    ensures var ends := EndMap(p, trap, haas);
            && ends.Keys == Opt(p.source) + Opt(p.destiny)
            && (p.source.Some? ==> p.source.value in ends && ends[p.source.value] == trap)
            && (p.destiny.Some? ==> p.destiny.value in ends && ends[p.destiny.value] == haas.value)
  {
  }

  lemma NewChannelKeeps(c: Ctx, trapNew: bool, haasNew: bool, openOk: bool)
    requires InOrder(c) && ChannelsPaired(c)
    ensures InOrder(DoNewChannel(c, trapNew, haasNew, openOk))
  {
    hide InOrder, OpenChannel, DropChannel;
    if c.trapChannel.None? && trapNew {
      if c.haasSession.None? || !haasNew {
        LoneChannelKeeps(c);
      } else {
        BothChannelsKeep(c, openOk);
      }
    }
  }

  /** A client channel that found no mate. */
  lemma LoneChannelKeeps(c: Ctx)
    requires InOrder(c)
    ensures InOrder(DropChannel(OpenChannel(c, c.trapSession), c.next))
  {
    hide Replay, PoolChannels, Apart, WellKept;
    var b, c1 := Replay(c.log), OpenChannel(c, c.trapSession);
    OpenChannelBooks(c, c.trapSession);
    DropBooks(c1, Some(c.next));
    assert b.channels[c.next := c.trapSession] - {c.next} == b.channels;
    var d := DropChannel(c1, c.next);
    assert SameHoldings(c, d);
    SameBooks(b, c, d);
  }

  /** The client's channel and its mate, kept together or dropped together. */
  lemma BothChannelsKeep(c: Ctx, openOk: bool)
    requires InOrder(c) && ChannelsPaired(c) && c.trapChannel.None? && c.haasSession.Some?
    ensures InOrder(DoNewChannel(c, true, true, openOk))
  {
    hide Replay, PoolChannels, Apart, WellKept, MainChannels;
    var b, t := Replay(c.log), c.next;
    var c1 := OpenChannel(c, c.trapSession);
    OpenChannelBooks(c, c.trapSession);
    var h, s := c1.next, c.haasSession.value;
    var c2 := OpenChannel(c1, s);
    OpenChannelBooks(c1, s);
    if openOk {
      BothKept(c, c2, t, h);
    } else {
      BothDropped(c, c2, t, h, s);
    }
  }

  lemma BothKept(c: Ctx, c2: Ctx, t: Handle, h: Handle)
    requires InOrder(c) && ChannelsPaired(c) && c.trapChannel.None? && c.haasSession.Some?
    requires Ahead(c, c2) && c.next <= t < h < c2.next && t !in Replay(c.log).channels && h !in Replay(c.log).channels
    requires var b := Replay(c.log);
             Replay(c2.log) == b.(channels := b.channels[t := c.trapSession][h := c.haasSession.value],
               issued := c2.next)
    requires WellKept(Replay(c2.log))
    ensures InOrder(c2.(trapChannel := Some(t), haasChannel := Some(h)))
  {
    hide Replay, PoolChannels, Apart, WellKept;
    assert MainChannels(c2.(trapChannel := Some(t), haasChannel := Some(h)))
           == map[t := c.trapSession, h := c.haasSession.value];
    assert MainChannels(c) == map[];
  }

  lemma BothDropped(c: Ctx, c2: Ctx, t: Handle, h: Handle, s: Handle)
    requires InOrder(c) && Ahead(c, c2) && t != h && t !in Replay(c.log).channels && h !in Replay(c.log).channels
    requires var b := Replay(c.log);
             Replay(c2.log) == b.(channels := b.channels[t := c.trapSession][h := s], issued := c2.next)
    requires WellKept(Replay(c2.log)) && c.next <= c2.next
    ensures InOrder(DropChannel(DropChannel(c2, h), t))
  {
    hide Replay, PoolChannels, Apart, WellKept;
    DropBooks(c2, Some(h));
    DropBooks(DropChannel(c2, h), Some(t));
    var b := Replay(c.log);
    assert b.channels[t := c.trapSession][h := s] - {h} - {t} == b.channels;
    var d := DropChannel(DropChannel(c2, h), t);
    assert SameHoldings(c, d);
    SameBooks(b, c, d);
  }

  lemma {:induction false} NoDestinies(items: seq<Pair>, trap: Handle, haas: Option<Handle>)
    requires forall p :: p in items ==> p.destiny.None?
    ensures PoolChannels(items, trap, haas) == PoolChannels(items, trap, None)
  {
    if items != [] {
      assert items[|items| - 1] in items;
      NoDestinies(items[..|items| - 1], trap, haas);
    }
  }

  lemma ApartWithoutDestinies(items: seq<Pair>, trap: Handle, haas: Option<Handle>)
    requires Apart(items, trap, None)
    ensures Apart(items, trap, haas)
  {
    assert forall p :: p in items ==> EndMap(p, trap, haas) == EndMap(p, trap, None);
  }

  lemma AuthKeeps(c: Ctx, outcome: AuthOutcome)
    requires InOrder(c) && ChannelsPaired(c) && !(c.authenticated && outcome.AuthSucceeds?)
    ensures InOrder(DoAuthPassword(c, outcome))
  {
    hide InOrder, ChannelsPaired, OpenSession;
    if outcome.AuthSucceeds? {
      LoginKeeps(c);
    } else if outcome.NoSession? {
      FailureKeeps(c);
    } else {
      FailedLoginKeeps(c);
      FailureKeeps(Log(OpenSession(c), SessionFree(c.next)));
    }
  }

  lemma FailureKeeps(c: Ctx)
    requires InOrder(c)
    ensures InOrder(AuthFailed(c))
  {
    hide Replay, PoolChannels, Apart, WellKept;
    SameBooks(Replay(c.log), c, AuthFailed(c));
  }

  /** The session of a failed login is freed at once. */
  lemma FailedLoginKeeps(c: Ctx)
    requires InOrder(c)
    ensures InOrder(Log(OpenSession(c), SessionFree(c.next)))
  {
    hide Replay, PoolChannels, Apart;
    var b, c1 := Replay(c.log), OpenSession(c);
    OpenSessionBooks(c);
    LogBooks(c1, SessionFree(c.next));
    assert b.sessions + {c.next} - {c.next} == b.sessions;
    WellKeptStep(Replay(c1.log), SessionFree(c.next));
  }

  lemma LoginKeeps(c: Ctx)
    requires InOrder(c) && ChannelsPaired(c) && !c.authenticated
    ensures InOrder(DoAuthPassword(c, AuthSucceeds))
  {
    hide Replay, PoolChannels, WellKept;
    var d := DoAuthPassword(c, AuthSucceeds);
    OpenSessionBooks(c);
    NoDestinies(Items(c), c.trapSession, d.haasSession);
    ApartWithoutDestinies(Items(c), c.trapSession, d.haasSession);
  }

  lemma NewPair(items: seq<Pair>, p: Pair, trap: Handle, haas: Option<Handle>)
    requires Apart(items, trap, haas) && p.id !in PoolIds(items)
    requires Opt(p.source) + Opt(p.destiny) !! PoolChannels(items, trap, haas).Keys
    requires (p.source.Some? && p.destiny.Some? ==> p.source != p.destiny) && (p.destiny.Some? ==> haas.Some?)
    ensures Apart(items + [p], trap, haas)
    ensures PoolIds(items + [p]) == PoolIds(items) + {p.id}
    ensures PoolChannels(items + [p], trap, haas) == PoolChannels(items, trap, haas) + EndMap(p, trap, haas)
  {
    hide Apart, EndMap;
    assert (items + [p])[..|items|] == items;
    NewPairApart(items, p, trap, haas);
  }

  lemma NewPairApart(items: seq<Pair>, p: Pair, trap: Handle, haas: Option<Handle>)
    requires Apart(items, trap, haas) && p.id !in PoolIds(items)
    requires Opt(p.source) + Opt(p.destiny) !! PoolChannels(items, trap, haas).Keys
    requires (p.source.Some? && p.destiny.Some? ==> p.source != p.destiny) && (p.destiny.Some? ==> haas.Some?)
    ensures Apart(items + [p], trap, haas)
  {
    hide PoolChannels, EndMap;
    assert p !in items;
    EndMapOf(p, trap, haas);
    forall q | q in items
      ensures EndMap(q, trap, haas).Keys !! EndMap(p, trap, haas).Keys && multiset(items + [p])[q] == 1
    {
      forall h | h in EndMap(q, trap, haas)
        ensures h in PoolChannels(items, trap, haas)
      {
        PoolChannelOf(items, trap, haas, q, h);
      }
    }
    assert multiset(items + [p])[p] == 1;
  }

  lemma IssuedIds(b: Books, c: Ctx)
    requires Agrees(b, c)
    ensures forall h: Handle :: h >= b.issued ==> h !in PoolIds(Items(c))
  {
  }

  /** c1 is c with the channels src and dst opened, and owned by nobody yet. */
  predicate InHand(c: Ctx, c1: Ctx, src: Option<Handle>, dst: Option<Handle>) {
    var b, b1 := Replay(c.log), Replay(c1.log);
    && Ahead(c, c1) && (dst.Some? ==> c.haasSession.Some?) && (src.Some? && dst.Some? ==> src != dst)
    && Opt(src) + Opt(dst) !! b.channels.Keys
    && b1 == b.(channels := b.channels + EndMap(Pair(0, src, dst, false), c.trapSession, c.haasSession),
       issued := b1.issued)
    && WellKept(b1) && b.issued <= b1.issued <= c1.next && c.next <= c1.next
  }

  lemma NothingInHand(c: Ctx)
    requires InOrder(c)
    ensures InHand(c, c, None, None)
  {
    var b := Replay(c.log);
    assert b.channels + EndMap(Pair(0, None, None, false), c.trapSession, c.haasSession) == b.channels;
  }

  lemma OpenFarInHand(c: Ctx, dstNew: bool, openOk: bool)
    requires InOrder(c) && !(c.mode == Allow && c.haasSession.Some? && dstNew && !openOk)
    ensures var far := OpenFar(c, dstNew, openOk); InHand(c, far.c, None, far.dst)
  {
    hide Replay, PoolChannels, Apart, WellKept, Separate;
    NothingInHand(c);
    if c.mode == Allow && c.haasSession.Some? && dstNew {
      OpenChannelBooks(c, c.haasSession.value);
      var ends := EndMap(Pair(0, None, Some(c.next), false), c.trapSession, c.haasSession);
      assert Replay(c.log).channels[c.next := c.haasSession.value] == Replay(c.log).channels + ends;
    } else {
      hide InHand;
    }
  }

  lemma SourceToo(m: map<Handle, Handle>, src: Handle, dst: Option<Handle>, trap: Handle, haas: Option<Handle>)
    requires dst != Some(src)
    ensures (m + EndMap(Pair(0, None, dst, false), trap, haas))[src := trap]
            == m + EndMap(Pair(0, Some(src), dst, false), trap, haas)
  {
  }

  lemma OpenSrcInHand(c: Ctx, c0: Ctx, dst: Option<Handle>)
    requires InOrder(c) && InHand(c, c0, None, dst)
    ensures InHand(c, OpenChannel(c0, c.trapSession), Some(c0.next), dst)
  {
    hide Replay, PoolChannels, Apart, WellKept, EndMap, MainChannels, Watched, Separate, PoolIds;
    OpenChannelBooks(c0, c.trapSession);
    EndMapOf(Pair(0, None, dst, false), c.trapSession, c.haasSession);
    SourceToo(Replay(c.log).channels, c0.next, dst, c.trapSession, c.haasSession);
  }

  lemma MainAside(c: Ctx, d: Ctx)
    requires d.phase == c.phase && d.trapSession == c.trapSession && d.trapChannel == c.trapChannel
    requires d.haasSession == c.haasSession && d.haasChannel == c.haasChannel
    ensures MainChannels(d) == MainChannels(c) && Sessions(d) == Sessions(c) && Watched(d) == Watched(c)
  {
  }

  /** Storing a fresh pair over the two channels in hand. */
  lemma StoreKeeps(c: Ctx, c1: Ctx, src: Handle, dst: Option<Handle>, reallocated: bool)
    requires InOrder(c) && InHand(c, c1, Some(src), dst) && c.pool.ForwardPool? && (Full(c) ==> reallocated)
    ensures InOrder(Store(c1, src, dst, true, reallocated))
  {
    hide Replay, PoolChannels, Apart, WellKept, EndMap, One, PoolIds, MainChannels, Sessions, Watched;
    var b, b1 := Replay(c.log), Replay(c1.log);
    var p := Pair(c1.next, Some(src), dst, false);
    LogBooks(c1, PairNew(c1.next));
    WellKeptStep(b1, PairNew(c1.next));
    IssuedIds(b, c);
    NewPair(Items(c), p, c.trapSession, c.haasSession);
    var d := Store(c1, src, dst, true, reallocated);
    assert Items(d) == Items(c) + [p];
    MainAside(c, d);
    IdAside(p, c.trapSession, c.haasSession);
    MapSumAssociates(MainChannels(c), PoolChannels(Items(c), c.trapSession, c.haasSession),
      EndMap(p, c.trapSession, c.haasSession));
  }

  lemma IdAside(p: Pair, trap: Handle, haas: Option<Handle>)
    ensures EndMap(p, trap, haas) == EndMap(p.(id := 0), trap, haas)
    ensures EndMap(p, trap, haas).Keys <= Opt(p.source) + Opt(p.destiny)
  {
  }

  lemma MapSumAssociates(x: map<Handle, Handle>, y: map<Handle, Handle>, z: map<Handle, Handle>)
    ensures x + y + z == x + (y + z)
  {
  }

  lemma HandBack(channels: map<Handle, Handle>, src: Option<Handle>, dst: Option<Handle>, trap: Handle,
                 haas: Option<Handle>)
    requires Opt(src) + Opt(dst) !! channels.Keys && (dst.Some? ==> haas.Some?)
    requires src.Some? && dst.Some? ==> src != dst
    ensures var all := channels + EndMap(Pair(0, src, dst, false), trap, haas);
            && all - Opt(dst) - Opt(src) == channels
            && Opt(dst) <= all.Keys && Opt(src) <= all.Keys - Opt(dst)
  {
  }

  /** Refusing the channels in hand leaves the books as they were. */
  lemma RefuseKeeps(c: Ctx, c1: Ctx, src: Option<Handle>, dst: Option<Handle>)
    requires InOrder(c) && InHand(c, c1, src, dst)
    ensures InOrder(Refuse(c1, src, dst))
  {
    hide Replay, PoolChannels, Apart, WellKept, DropIfSome, EndMap, MainChannels;
    HandBack(Replay(c.log).channels, src, dst, c.trapSession, c.haasSession);
    DropBooks(c1, dst);
    DropBooks(DropIfSome(c1, dst), src);
    DropOnlyLogs(c1, dst);
    DropOnlyLogs(DropIfSome(c1, dst), src);
    var d := Refuse(c1, src, dst);
    assert SameHoldings(c, d);
    SameBooks(Replay(c.log), c, d);
  }

  predicate Hazard(c: Ctx, e: Event) {
    match e
    case AuthPassword(outcome) => outcome.AuthSucceeds? && c.authenticated
    case DirectTcpip(dstNew, openOk, accepted, pairNew, reallocated) =>
      var farReached := c.haasSession.Some? && dstNew;
      || (c.mode == Allow && farReached && !openOk)
      || (&& c.pool.ForwardPool? && accepted && (c.mode == Allow ==> farReached)
          && (!pairNew || (Full(c) && !reallocated)))
    case _ => false
  }

  lemma NoPoolKeeps(c: Ctx, c1: Ctx, src: Handle, dst: Option<Handle>, pairNew: bool, reallocated: bool)
    requires InOrder(c) && InHand(c, c1, Some(src), dst) && c.pool.NoPool?
    ensures InOrder(Store(c1, src, dst, pairNew, reallocated))
  {
    hide Replay, PoolChannels, Apart, WellKept, Refuse;
    if pairNew {
      var p, b1 := c1.next, Replay(c1.log);
      var c2 := Log(c1, PairNew(p)).(next := p + 1);
      LogBooks(c1, PairNew(p));
      WellKeptStep(b1, PairNew(p));
      LogBooks(c2, PairFree(p));
      WellKeptStep(Replay(c2.log), PairFree(p));
      IssuedIds(Replay(c.log), c);
      assert b1.pairs + {p} - {p} == b1.pairs;
      RefuseKeeps(c, Log(c2, PairFree(p)), Some(src), dst);
    } else {
      RefuseKeeps(c, c1, Some(src), dst);
    }
  }

  lemma DirectTcpipKeeps(c: Ctx, dstNew: bool, openOk: bool, accepted: bool, pairNew: bool, reallocated: bool)
    requires InOrder(c) && HandleInv(c) && !Hazard(c, DirectTcpip(dstNew, openOk, accepted, pairNew, reallocated))
    ensures InOrder(DoDirectTcpip(c, dstNew, openOk, accepted, pairNew, reallocated))
  {
    hide InOrder, InHand, Refuse, Store;
    if c.mode != Deny {
      var far := OpenFar(c, dstNew, openOk);
      OpenFarInHand(c, dstNew, openOk);
      if !far.accept || !accepted {
        RefuseKeeps(c, far.c, None, far.dst);
      } else {
        var src, c1 := far.c.next, OpenChannel(far.c, c.trapSession);
        OpenSrcInHand(c, far.c, far.dst);
        if c.mode == Fake {
          RefuseKeeps(c, c1, Some(src), far.dst);
        } else if c.pool.ForwardPool? {
          StoreKeeps(c, c1, src, far.dst, reallocated);
        } else {
          NoPoolKeeps(c, c1, src, far.dst, pairNew, reallocated);
        }
      }
    }
  }

  // ---------------------------------------------------------------- sweeping, and the end

  lemma PairReleasedBooks(c: Ctx, rest: seq<Pair>, p: Pair)
    requires InOrder(c) && c.pool.ForwardPool? && p in Items(c)
    ensures var b := Replay(c.log);
            var d := ReleasePair(c.(pool := c.pool.(items := rest)), p);
            && Replay(d.log)
               == b.(channels := b.channels - EndMap(p, c.trapSession, c.haasSession).Keys, pairs := b.pairs - {p.id})
            && WellKept(Replay(d.log)) && OnlyLogged(c.(pool := c.pool.(items := rest)), d)
  {
    hide Replay, PoolChannels, WellKept, ReleasePair, PoolIds, EndMap, Apart;
    var c1 := c.(pool := c.pool.(items := rest));
    EndsAreLive(c, p);
    EndsOf(Items(c), p, c.trapSession, c.haasSession);
    ReleasePairBooks(c1, p);
    ReleasePairOnlyLogs(c1, p);
  }

  /** Releasing a pair just taken out of the pool. */
  lemma PairReleased(c: Ctx, rest: seq<Pair>, p: Pair)
    requires InOrder(c) && c.pool.ForwardPool? && p in Items(c) && multiset(rest) == multiset(Items(c)) - multiset{p}
    ensures InOrder(ReleasePair(c.(pool := c.pool.(items := rest)), p))
  {
    hide Replay, PoolChannels, WellKept, ReleasePair, PoolIds, EndMap, One, Apart;
    var d := ReleasePair(c.(pool := c.pool.(items := rest)), p);
    PairReleasedBooks(c, rest, p);
    assert Items(d) == rest;
    RemoveOne(Items(c), rest, p, c.trapSession, c.haasSession);
    TakeOut(MainChannels(c), PoolChannels(Items(c), c.trapSession, c.haasSession),
      EndMap(p, c.trapSession, c.haasSession).Keys);
  }

  lemma EndsOf(items: seq<Pair>, p: Pair, trap: Handle, haas: Option<Handle>)
    requires Apart(items, trap, haas) && p in items
    ensures EndMap(p, trap, haas).Keys == Opt(p.source) + Opt(p.destiny)
    ensures p.source.Some? && p.destiny.Some? ==> p.source != p.destiny
  {
  }

  lemma TakeOut(main: map<Handle, Handle>, pool: map<Handle, Handle>, ends: set<Handle>)
    requires main.Keys !! pool.Keys && ends <= pool.Keys
    ensures main + pool - ends == main + (pool - ends) && main.Keys !! (pool - ends).Keys
  {
  }

  lemma {:induction false} ReleaseClosedKeeps(c: Ctx)
    requires InOrder(c)
    ensures InOrder(ReleaseClosed(c))
    decreases |Items(c)|
  {
    var f := FindClosed(Items(c));
    if f.Some? {
      hide InOrder;
      var p, rest := Items(c)[f.value], SwapRemove(Items(c), f.value);
      SwapRemoveMultiset(Items(c), f.value);
      PairReleased(c, rest, p);
      ReleasePairOnlyLogs(c.(pool := c.pool.(items := rest)), p);
      ReleaseClosedKeeps(ReleasePair(c.(pool := c.pool.(items := rest)), p));
    }
  }

  lemma EmptyPoolGone(c: Ctx)
    requires InOrder(c) && Items(c) == []
    ensures InOrder(c.(pool := NoPool))
  {
    assert Items(c.(pool := NoPool)) == Items(c);
  }

  lemma {:induction false} DropPoolKeeps(c: Ctx)
    requires InOrder(c)
    ensures InOrder(DropPool(c))
    decreases |Items(c)|
  {
    hide InOrder;
    if c.pool.NoPool? {
    } else if c.pool.items == [] {
      EmptyPoolGone(c);
    } else {
      var p, rest := c.pool.items[0], c.pool.items[1..];
      assert c.pool.items == [p] + rest;
      PairReleased(c, rest, p);
      ReleasePairOnlyLogs(c.(pool := c.pool.(items := rest)), p);
      DropPoolKeeps(ReleasePair(c.(pool := c.pool.(items := rest)), p));
    }
  }

  lemma CloseSessionsBalances(c: Ctx)
    requires InOrder(c) && c.phase == Closing && c.pool.NoPool? && ChannelsPaired(c)
    ensures Balanced(CloseSessions(c).log)
  {
    hide Replay, WellKept, Apart;
    var b := Replay(c.log);
    MainIsLive(c);
    DropBooks(c, c.haasChannel);
    var c1 := DropIfSome(c, c.haasChannel);
    var c2 := CloseIfSome(c1, c.haasSession);
    if c.haasSession.Some? {
      LogBooks(c1, SessionFree(c.haasSession.value));
      WellKeptStep(Replay(c1.log), SessionFree(c.haasSession.value));
    }
    DropBooks(c2, c.trapChannel);
    LogBooks(DropIfSome(c2, c.trapChannel), SessionFree(c.trapSession));
    assert PoolChannels(Items(c), c.trapSession, c.haasSession) == map[];
  }

  lemma TearDownBalances(c: Ctx)
    requires InOrder(c.(phase := Closing)) && ChannelsPaired(c)
    ensures Balanced(TearDown(c).log) && TearDown(c).phase == Done
  {
    hide InOrder, DropPool, CloseSessions;
    var c1 := c.(phase := Closing);
    DropPoolKeeps(c1);
    DropPoolEmpties(c1);
    CloseSessionsBalances(DropPool(c1));
    LeavingIsDone(c);
  }

  /** The end of a session in the given phase, once the event loop holds only the trap session. */
  lemma LeaveWaitBalances(c: Ctx)
    requires InOrder(c.(phase := Wait)) && ChannelsPaired(c)
    ensures Balanced(LeaveWait(c).log)
  {
    hide PoolChannels, Apart, Replay, WellKept, TearDown;
    var w := c.(phase := Wait);
    LogBooks(c, EventRemove(c.trapSession));
    WellKeptStep(Replay(c.log), EventRemove(c.trapSession));
    var c1 := Log(c, EventRemove(c.trapSession));
    assert Items(c1) == Items(w);
    assert {c.trapSession} - {c.trapSession} == {};
    TearDownBalances(c1);
  }

  lemma LeaveRelayBalances(c: Ctx)
    requires InOrder(c) && c.phase == Relay && ChannelsPaired(c)
    ensures Balanced(LeaveRelay(c).log)
  {
    hide PoolChannels, Apart, Replay, WellKept, LeaveWait;
    var c1 := Log(c, EventRemove(c.haasSession.value));
    LogBooks(c, EventRemove(c.haasSession.value));
    WellKeptStep(Replay(c.log), EventRemove(c.haasSession.value));
    assert Items(c1) == Items(c);
    assert Sessions(c) - {c.haasSession.value} == {c.trapSession};
    LeaveWaitBalances(c1);
  }

  /** The event loops take up a session, and every step of them that stays. */
  lemma WatchKeeps(c: Ctx, s: Handle, phase: Phase)
    requires InOrder(c) && s in Replay(c.log).sessions && s !in Replay(c.log).watched
    requires Watched(c.(phase := phase)) == Watched(c) + {s}
    ensures InOrder(Log(c, EventAdd(s)).(phase := phase))
  {
    hide PoolChannels, Apart, Replay, WellKept;
    LogBooks(c, EventAdd(s));
    WellKeptStep(Replay(c.log), EventAdd(s));
    assert Items(Log(c, EventAdd(s)).(phase := phase)) == Items(c);
  }

  lemma PollForwardKeeps(c: Ctx, eof: bool)
    requires InOrder(c) && HandleInv(c) && Enabled(c, PollForward(eof))
    ensures InOrder(DoPollForward(c, eof))
  {
    hide InOrder;
    var i := c.sweeping.i;
    var p := Items(c)[i];
    var end := if c.sweeping.AtSource? then p.source else p.destiny;
    EndsAreLive(c, p);
    UseKeeps(c, end);
    var c1 := UseIfSome(c, end);
    if end.Some? && eof {
      MarkClosedKeeps(c1, i);
    }
    SweepingAside(if end.Some? && eof then MarkClosed(c1, i) else c1, DoPollForward(c, eof).sweeping);
  }

  lemma SweepingAside(c: Ctx, sweeping: Sweeping)
    requires InOrder(c)
    ensures InOrder(c.(sweeping := sweeping))
  {
    SameBooks(Replay(c.log), c, c.(sweeping := sweeping));
  }

  lemma UseKeeps(c: Ctx, h: Option<Handle>)
    requires InOrder(c) && (h.Some? ==> h.value in Replay(c.log).channels)
    ensures InOrder(UseIfSome(c, h))
    ensures h.Some? ==> Replay(UseIfSome(c, h).log) == Replay(c.log)
  {
    if h.Some? {
      LogBooks(c, ChannelUse(h.value));
      CallKeeps(c, ChannelUse(h.value), UseIfSome(c, h));
    }
  }

  lemma MarkClosedKeeps(c: Ctx, i: nat)
    requires InOrder(c) && i < |Items(c)|
    ensures InOrder(MarkClosed(c, i))
  {
    hide Replay, PoolChannels, WellKept;
    var d := MarkClosed(c, i);
    assert Items(d) == CloseAt(Items(c), i);
    ClosedChangesNothing(Items(c), i, c.trapSession, c.haasSession);
    ClosedApart(Items(c), i, c.trapSession, c.haasSession);
  }

  lemma UpdateMultiset(items: seq<Pair>, i: nat, q: Pair)
    requires i < |items|
    ensures multiset(items[i := q]) == multiset(items) - multiset{items[i]} + multiset{q}
  {
    assert items == items[..i] + [items[i]] + items[i + 1..];
    assert items[i := q] == items[..i] + [q] + items[i + 1..];
  }

  /** The members of a pool after one of them was replaced. */
  lemma Replaced(items: seq<Pair>, i: nat, q: Pair, after: seq<Pair>)
    requires i < |items| && after == items[i := q] && multiset(items)[items[i]] == 1 && (q in items ==> q == items[i])
    requires forall x :: x in items ==> multiset(items)[x] == 1
    ensures forall x :: x in after <==> x == q || (x in items && x != items[i])
    ensures forall x :: x in after ==> multiset(after)[x] == 1
  {
    var p := items[i];
    var was, now := multiset(items), multiset(after);
    UpdateMultiset(items, i, q);
    assert forall x :: x in after <==> now[x] > 0;
    assert forall x :: x in items <==> was[x] > 0;
  }

  lemma ClosedApart(items: seq<Pair>, i: nat, trap: Handle, haas: Option<Handle>)
    requires i < |items| && Apart(items, trap, haas)
    ensures Apart(CloseAt(items, i), trap, haas)
    ensures PoolIds(CloseAt(items, i)) == PoolIds(items)
  {
    var p, after := items[i], CloseAt(items, i);
    var q := p.(closed := true);
    assert p in items && q.id == p.id;
    Replaced(items, i, q, after);
    hide One;
    assert EndMap(q, trap, haas) == EndMap(p, trap, haas);
    forall x | x in PoolIds(items)
      ensures x in PoolIds(after)
    {
      var y :| y in items && y.id == x;
      assert y == p || y in after;
      assert q in after;
    }
  }

  // ---------------------------------------------------------------- whole runs

  lemma CallbackKeeps(c: Ctx, e: Event)
    requires InOrder(c) && HandleInv(c) && Enabled(c, e) && IsCallback(e) && !Hazard(c, e)
    ensures InOrder(Next(c, e))
  {
    hide DoAuthPassword, DoNewChannel, DoDirectTcpip, InOrder, Replay;
    MainIsLive(c);
    if e.AuthPassword? {
      AuthKeeps(c, e.outcome);
    } else if e.NewChannel? {
      NewChannelKeeps(c, e.trapNew, e.haasNew, e.openOk);
    } else if e.DirectTcpip? {
      DirectTcpipKeeps(c, e.dstNew, e.openOk, e.accepted, e.pairNew, e.reallocated);
    } else if e.ForwardClosed? {
      MarkClosedKeeps(c, e.i);
    } else if e.ForwardData? {
      EndsAreLive(c, Items(c)[e.i]);
      WriteKeeps(c, c.haasSession, Items(c)[e.i].destiny, e.stderr, Accepted(e.data, e.wrote));
      WriteKeeps(c, Some(c.trapSession), Items(c)[e.i].source, e.stderr, Accepted(e.data, e.wrote));
    } else {
      OtherCallbackKeeps(c, e);
    }
  }

  lemma WriteKeeps(c: Ctx, s: Option<Handle>, to: Option<Handle>, stderr: bool, accepted: seq<Byte>)
    requires InOrder(c)
    requires s.Some? && to.Some? ==> to.value in Replay(c.log).channels && Replay(c.log).channels[to.value] == s.value
    ensures InOrder(WriteTo(c, s, to, stderr, accepted))
  {
    if s.Some? && to.Some? {
      CallKeeps(c, Write(s.value, to.value, stderr, accepted), WriteTo(c, s, to, stderr, accepted));
    }
  }

  lemma OtherCallbackKeeps(c: Ctx, e: Event)
    requires InOrder(c) && HandleInv(c) && Enabled(c, e)
    requires e.TrapData? || e.HaasData? || e.Pty? || e.Shell? || e.Window? || e.MainClosed?
    ensures InOrder(Next(c, e))
  {
    hide InOrder, WriteTo;
    MainIsLive(c);
    var d := Next(c, e);
    if e.TrapData? {
      WriteKeeps(c, c.haasSession, c.haasChannel, e.stderr, Accepted(e.data, e.wrote));
    } else if e.HaasData? {
      WriteKeeps(c, Some(c.trapSession), c.trapChannel, e.stderr, Accepted(e.data, e.wrote));
    } else if d.log == c.log {
      ClosedFlagAside(c, d);
    } else {
      assert d.log == c.log + [d.log[|c.log|]];
      CallKeeps(c, d.log[|c.log|], d);
    }
  }

  lemma ClosedFlagAside(c: Ctx, d: Ctx)
    requires InOrder(c) && SameHoldings(c, d) && d.log == c.log
    ensures InOrder(d)
  {
    SameBooks(Replay(c.log), c, d);
  }

  lemma LoopKeeps(c: Ctx, e: Event)
    requires InOrder(c) && HandleInv(c) && Enabled(c, e) && !IsCallback(e)
    ensures if Next(c, e).phase == Done then Balanced(Next(c, e).log) else InOrder(Next(c, e))
  {
    hide InOrder, Replay, TearDown, LeaveWait, LeaveRelay, ReleaseClosed, DoPollForward, Balanced;
    LeavingIsDone(c);
    MainIsLive(c);
    if e.KexDone? {
      if e.ok {
        NothingWatched(c);
        WatchKeeps(c, c.trapSession, Wait);
      } else {
        NothingWatched(c);
        TearDownBalances(c);
      }
    } else if e.PollDone? {
      if c.phase == Wait {
        OnlyTrapWatched(c);
      }
      if e.leave || c.closed {
        if c.phase == Relay {
          LeaveRelayBalances(c);
        } else {
          assert c.(phase := Wait) == c;
          LeaveWaitBalances(c);
        }
      } else if c.phase == Wait && c.trapChannel.Some? && c.authenticated {
        WatchKeeps(c, c.haasSession.value, Relay);
      }
    } else if e.RelayTop? {
      UseKeeps(c, c.trapChannel);
      UseKeeps(UseIfSome(c, c.trapChannel), c.haasChannel);
    } else if e.SweepBegins? {
      SweepingAside(c, AtSource(0, |Items(c)|));
    } else if e.PollForward? {
      PollForwardKeeps(c, e.eof);
      PollForwardStep(c, e.eof);
    } else {
      ReleaseClosedKeeps(c);
      ReleaseClosedSweeps(c);
      SweepingAside(ReleaseClosed(c), NotPolling);
    }
  }

  lemma NothingWatched(c: Ctx)
    requires InOrder(c) && c.phase == Kex
    ensures Replay(c.log).watched == {} && InOrder(c.(phase := Closing))
    ensures Watched(c.(phase := Wait)) == Watched(c) + {c.trapSession}
  {
    assert Items(c.(phase := Closing)) == Items(c);
  }

  lemma OnlyTrapWatched(c: Ctx)
    requires InOrder(c) && c.phase == Wait
    ensures Replay(c.log).watched == {c.trapSession} && c.haasSession != Some(c.trapSession)
    ensures c.haasSession.Some? ==> Watched(c.(phase := Relay)) == Watched(c) + {c.haasSession.value}
  {
  }

  predicate HazardFree(start: Ctx, es: seq<Event>)
    requires Legal(start, es)
  {
    es == [] || (HazardFree(start, es[..|es| - 1]) && !Hazard(Run(start, es[..|es| - 1]), es[|es| - 1]))
  }

  lemma StartInOrder(mode: Mode, poolNew: bool)
    ensures InOrder(Start(mode, poolNew)) && HandleInv(Start(mode, poolNew))
  {
    var c := Start(mode, poolNew);
    assert c.log[..0] == [];
    assert Replay(c.log) == Post(EMPTY_BOOKS, SessionNew(0));
    assert Items(c) == [];
  }

  /** Without a hazard the books are in order at every moment, and balanced at the end. */
  lemma {:induction false} HazardFreeKeepsOrder(mode: Mode, poolNew: bool, es: seq<Event>)
    requires Legal(Start(mode, poolNew), es) && HazardFree(Start(mode, poolNew), es)
    ensures var c := Run(Start(mode, poolNew), es); if c.phase == Done then Balanced(c.log) else InOrder(c)
  {
    hide InOrder, Balanced, Start;
    if es == [] {
      StartInOrder(mode, poolNew);
      StartPhase(mode, poolNew);
    } else {
      var before, e := es[..|es| - 1], es[|es| - 1];
      var c := Run(Start(mode, poolNew), before);
      HazardFreeKeepsOrder(mode, poolNew, before);
      HandleInvRun(mode, poolNew, before);
      if IsCallback(e) {
        CallbackKeeps(c, e);
        CallbackStep(c, e);
      } else {
        LoopKeeps(c, e);
      }
    }
  }

  lemma StartPhase(mode: Mode, poolNew: bool)
    ensures Start(mode, poolNew).phase == Kex
  {
  }
}
