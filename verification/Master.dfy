/**
 The master process itself: the globals and locals of src/main.c as fields, its handler and its
 main loop as methods over them.  What the kernel does (deaths, signal delivery, the results of
 select and fork) comes in as a script.  `trace` records every step taken, and `Valid` says that
 the fields are what the run of ChildAccounting along that trace yields, so its theorems hold of
 this object between any two statements.
 */
module MasterProcess {
  import opened ChildAccounting

  /** Deaths before a signal may be delivered, then those before each waitpid and after the last. */
  datatype Burst = Burst(deaths: nat, arrivals: seq<nat>, late: nat)

  datatype Turn =
    | SelectFailed(eintr: bool, gaps: seq<seq<Burst>>)
    | Connection(forked: bool, gaps: seq<seq<Burst>>)
    | Idle(gap: seq<Burst>)

  /** What an event is to the script: the outcome of a select, or what became of a connection. */
  datatype Outcome = Failed | Quiet | Ended | Refused | Served | Unserved

  function OutcomeOf(s: State, e: Event): seq<Outcome> {
    match e
    case Interrupted => [Failed]
    case Nothing => [Quiet]
    case Stop => [Ended]
    case ForkFails => [Unserved]
    case Step => if s.pc == Fork then [Served] else if s.pc == Gate && s.childCount >= s.limit then [Refused] else []
    case _ => []
  }

  /** The outcomes in a run, in order. */
  function Outcomes(limit: nat, es: seq<Event>): seq<Outcome>
    requires Legal(limit, es)
  {
    if es == [] then []
    else Outcomes(limit, es[..|es| - 1]) + OutcomeOf(Run(limit, es[..|es| - 1]), es[|es| - 1])
  }

  /** Whether an outcome is what the script asked for; a connection may also be refused at the limit. */
  predicate Answers(t: Turn, o: Outcome) {
    match t
    case SelectFailed(eintr, _) => o == if eintr then Failed else Ended
    case Connection(forked, _) => o == Refused || o == if forked then Served else Unserved
    case Idle(_) => o == Quiet
  }

  /** The first select that fails for good, or else the end of the script. */
  function TurnsTaken(turns: seq<Turn>): (n: nat)
    ensures n <= |turns|
  {
    if turns == [] || (turns[0].SelectFailed? && !turns[0].eintr) then 0 else 1 + TurnsTaken(turns[1..])
  }

  lemma OneTurnTaken(turns: seq<Turn>, i: nat)
    requires i < |turns| && (turns[i].SelectFailed? ==> turns[i].eintr)
    ensures TurnsTaken(turns[i..]) == 1 + TurnsTaken(turns[i + 1..])
  {
    assert turns[i..][1..] == turns[i + 1..];
  }

  lemma NoTurnTaken(turns: seq<Turn>, i: nat)
    requires i == |turns| || (i < |turns| && turns[i].SelectFailed? && !turns[i].eintr)
    ensures TurnsTaken(turns[i..]) == 0
  {
  }

  lemma OneOutcome(limit: nat, es: seq<Event>, e: Event)
    requires Legal(limit, es) && Enabled(Run(limit, es), e)
    ensures Legal(limit, es + [e])
    ensures Outcomes(limit, es + [e]) == Outcomes(limit, es) + OutcomeOf(Run(limit, es), e)
  {
    Extend(limit, es, e);
    assert (es + [e])[..|es|] == es;
  }

  function Gap(gaps: seq<seq<Burst>>, i: nat): seq<Burst> { if i < |gaps| then gaps[i] else [] }

  class Master {
    const connLimit: nat
    var childCount: int
    var currTomb: Tomb
    var graveYard: array<int>
    // locals of the harvest
    var prevTomb: Tomb
    var nextTomb: Tomb
    var deadCount: int
    // the kernel's side
    var live: nat
    var zombies: nat
    var pending: bool

    ghost var pc: Pc
    ghost var handler: HandlerPc
    ghost var trace: seq<Event>

    ghost function Now(): State
      requires graveYard.Length == 2
      reads this, graveYard
    {
      State(connLimit, pc, prevTomb, nextTomb, deadCount, childCount, currTomb, graveYard[0], graveYard[1],
            handler, live, zombies, pending)
    }

    ghost predicate Valid()
      reads this, graveYard
    {
      graveYard.Length == 2 && Legal(connLimit, trace) && Now() == Run(connLimit, trace)
    }

    /** What has become of the script so far. */
    ghost function Heard(): seq<Outcome>
      requires Legal(connLimit, trace)
      reads this`trace
    {
      Outcomes(connLimit, trace)
    }

    /** Everybody who was ever counted or still may be: alive, zombie, or in the current tomb. */
    ghost function InUse(): int
      requires graveYard.Length == 2
      reads this, graveYard
    {
      live + zombies + graveYard[currTomb]
    }

    constructor (limit: nat)
      ensures Valid() && fresh(graveYard) && connLimit == limit
      ensures pc == Top && handler == Off && trace == [] && childCount == 0 && live == zombies == 0
    {
      connLimit := limit;
      childCount, currTomb, prevTomb, nextTomb, deadCount := 0, 0, 0, 0, 0;
      live, zombies, pending := 0, 0, false;
      graveYard := new int[2](i => 0);
      pc, handler, trace := Top, Off, [];
    }

    ghost method Log(e: Event)
      requires graveYard.Length == 2 && Legal(connLimit, trace) && Enabled(Run(connLimit, trace), e)
      requires Now() == Next(Run(connLimit, trace), e)
      modifies this`trace
      ensures Valid() && trace == old(trace) + [e]
      ensures var o := OutcomeOf(Run(connLimit, old(trace)), e);
              Heard() == if o == [] then old(Heard()) else old(Heard()) + o
    {
      Extend(connLimit, trace, e);
      OneOutcome(connLimit, trace, e);
      trace := trace + [e];
    }

    /** n children exit, or all there are. */
    method Kill(n: nat)
      requires Valid()
      modifies this`live, this`zombies, this`pending, this`trace
      ensures Valid() && Heard() == old(Heard())
      ensures live == (if n <= old(live) then old(live) - n else 0) && live + zombies == old(live + zombies)
      ensures pending == (old(pending) || live < old(live))
    {
      hide Run, Legal, Heard;
      var k := 0;
      while k < n && live > 0
        invariant Valid()
        invariant k <= n && live == old(live) - k && live + zombies == old(live + zombies)
        invariant pending == (old(pending) || live < old(live)) && Heard() == old(Heard())
      {
        live, zombies, pending, k := live - 1, zombies + 1, true, k + 1;
        Log(Die);
      }
    }

    method EnterHandler()
      requires Valid() && pending && handler == Off
      modifies this`pending, this`handler, this`trace
      ensures Valid() && trace == old(trace) + [Deliver] && handler == WaitPid && !pending
      ensures Heard() == old(Heard())
    {
      pending, handler := false, WaitPid;
      Log(Deliver);
    }

    /** waitpid(-1,..,WNOHANG): whether it returns a child. */
    method Waitpid() returns (found: bool)
      requires Valid() && handler == WaitPid
      modifies this`zombies, this`handler, this`trace
      ensures Valid() && Heard() == old(Heard())
      ensures found <==> old(zombies) > 0
      ensures zombies == if found then old(zombies) - 1 else 0
      ensures handler == if found then Bury else Leaving
    {
      found := zombies > 0;
      if found {
        zombies, handler := zombies - 1, Bury;
        Log(Reap);
      } else {
        handler := Leaving;
        Log(NoZombie);
      }
    }

    method BuryChild()
      requires Valid() && handler == Bury
      modifies this`handler, this`trace, graveYard
      ensures Valid() && handler == WaitPid
      ensures Heard() == old(Heard())
      ensures graveYard[currTomb] == old(graveYard[currTomb]) + 1
      ensures graveYard[1 - currTomb] == old(graveYard[1 - currTomb])
    {
      graveYard[currTomb], handler := graveYard[currTomb] + 1, WaitPid;
      Log(BuryOne);
    }

    method LeaveHandler()
      requires Valid() && handler == Leaving
      modifies this`handler, this`trace
      ensures Valid() && handler == Off
      ensures Heard() == old(Heard())
    {
      handler := Off;
      Log(Return);
    }

    /** The loop of the SIGCHLD branch: reap until waitpid has nobody left. */
    method ReapAll(arrivals: seq<nat>)
      requires Valid() && handler == WaitPid
      modifies this`live, this`zombies, this`pending, this`trace, this`handler, graveYard
      ensures Valid() && handler == Leaving
      ensures Heard() == old(Heard())
      ensures graveYard[1 - currTomb] == old(graveYard[1 - currTomb])
      ensures zombies == 0 && live <= old(live)
      ensures graveYard[currTomb] == old(graveYard[currTomb]) + old(zombies) + (old(live) - live)
    {
      hide Run, Legal, Heard;
      var k := 0;
      while true
        invariant Valid() && handler == WaitPid
        invariant graveYard[1 - currTomb] == old(graveYard[1 - currTomb])
        invariant InUse() == old(InUse()) && live <= old(live) && Heard() == old(Heard())
        decreases live + zombies
      {
        Kill(if k < |arrivals| then arrivals[k] else 0);
        k := k + 1;
        var found := Waitpid();
        if !found {
          break;
        }
        BuryChild();
      }
    }

    /** SigHandler(SIGCHLD) from entry to return. */
    method SigHandler(arrivals: seq<nat>, late: nat)
      requires Valid() && pending && handler == Off
      modifies this`live, this`zombies, this`pending, this`trace, this`handler, graveYard
      ensures Valid() && handler == Off
      ensures Heard() == old(Heard())
      ensures graveYard[1 - currTomb] == old(graveYard[1 - currTomb])
      ensures InUse() == old(InUse()) && live <= old(live) && graveYard[currTomb] >= old(graveYard[currTomb])
      ensures zombies <= late && (zombies > 0 ==> pending)
    {
      EnterHandler();
      ReapAll(arrivals);
      Kill(late);
      LeaveHandler();
    }

    /** So many deaths, and then the signal they raise is delivered. */
    method Strike(b: Burst)
      requires Valid() && handler == Off
      modifies this`live, this`zombies, this`pending, this`trace, this`handler, graveYard
      ensures Valid() && handler == Off
      ensures Heard() == old(Heard())
      ensures graveYard[1 - currTomb] == old(graveYard[1 - currTomb])
      ensures InUse() == old(InUse()) && graveYard[currTomb] >= old(graveYard[currTomb])
      ensures zombies <= b.late && live <= (if b.deaths <= old(live) then old(live) - b.deaths else 0)
    {
      hide Run, Legal, Heard;
      Kill(b.deaths);
      InvRun(connLimit, trace);
      if pending {
        SigHandler(b.arrivals, b.late);
      }
    }

    /** Whatever the kernel does between two statements of the main loop. */
    method Preempt(gap: seq<Burst>)
      requires Valid() && handler == Off
      modifies this`live, this`zombies, this`pending, this`trace, this`handler, graveYard
      ensures Valid() && handler == Off
      ensures Heard() == old(Heard())
      ensures graveYard[1 - currTomb] == old(graveYard[1 - currTomb])
      ensures InUse() == old(InUse()) && graveYard[currTomb] >= old(graveYard[currTomb])
      ensures gap != [] ==> zombies <= gap[|gap| - 1].late
    {
      hide Run, Legal, Heard;
      for i := 0 to |gap|
        invariant i > 0 ==> zombies <= gap[i - 1].late
        invariant Valid() && handler == Off && Heard() == old(Heard())
        invariant graveYard[1 - currTomb] == old(graveYard[1 - currTomb])
        invariant InUse() == old(InUse()) && graveYard[currTomb] >= old(graveYard[currTomb])
      {
        Strike(gap[i]);
      }
    }

    // -------------------------------------------------------------- the statements of the main loop

    method TestTomb() returns (found: bool)
      requires Valid() && handler == Off && pc == Test
      modifies this`pc, this`trace
      ensures Valid() && found == (graveYard[currTomb] != 0) && pc == if found then Remember else Top
      ensures Heard() == old(Heard())
    {
      found := graveYard[currTomb] != 0;
      pc := if found then Remember else Top;
      Log(Step);
    }

    method RememberTomb(gap: seq<Burst>)
      requires Valid() && handler == Off && pc == Remember
      modifies this`live, this`zombies, this`pending, this`trace, this`handler, graveYard
      modifies this`pc, this`prevTomb
      ensures Valid() && handler == Off && pc == SwapLoad && prevTomb == currTomb
      ensures Heard() == old(Heard())
      ensures InUse() == old(InUse())
      ensures graveYard[1 - currTomb] == old(graveYard[1 - currTomb])
      ensures graveYard[currTomb] >= old(graveYard[currTomb])
    {
      hide Run, Legal, Heard;
      Preempt(gap);
      prevTomb, pc := currTomb, SwapLoad;
      Log(Step);
    }

    method LoadSwitch(gap: seq<Burst>)
      requires Valid() && handler == Off && pc == SwapLoad
      modifies this`live, this`zombies, this`pending, this`trace, this`handler, graveYard
      modifies this`pc, this`nextTomb
      ensures Valid() && handler == Off && pc == SwapStore && nextTomb == 1 - currTomb
      ensures Heard() == old(Heard())
      ensures InUse() == old(InUse())
      ensures graveYard[1 - currTomb] == old(graveYard[1 - currTomb])
      ensures graveYard[currTomb] >= old(graveYard[currTomb])
    {
      hide Run, Legal, Heard;
      Preempt(gap);
      nextTomb, pc := if currTomb == 0 then 1 else 0, SwapStore;
      Log(Step);
    }

    /** The store that switches tombs; `retired` is what the old one holds at that instant. */
    method StoreSwitch(gap: seq<Burst>) returns (ghost retired: int)
      requires Valid() && handler == Off && pc == SwapStore
      modifies this`live, this`zombies, this`pending, this`trace, this`handler, graveYard
      modifies this`pc, this`currTomb
      ensures Valid() && handler == Off && pc == Read
      ensures Heard() == old(Heard())
      ensures currTomb == 1 - old(currTomb) && prevTomb == old(currTomb)
      ensures retired == graveYard[prevTomb] >= old(graveYard[currTomb])
      ensures retired + InUse() == old(InUse())
    {
      hide Run, Legal, Heard;
      Preempt(gap);
      InvRun(connLimit, trace);
      retired := graveYard[currTomb];
      currTomb, pc := nextTomb, Read;
      Log(Step);
    }

    method ReadDead(gap: seq<Burst>)
      requires Valid() && handler == Off && pc == Read
      modifies this`live, this`zombies, this`pending, this`trace, this`handler, graveYard
      modifies this`pc, this`deadCount
      ensures Valid() && handler == Off && pc == Clear
      ensures Heard() == old(Heard())
      ensures prevTomb == 1 - currTomb ==> deadCount == old(graveYard[prevTomb])
      ensures InUse() == old(InUse())
      ensures graveYard[1 - currTomb] == old(graveYard[1 - currTomb])
    {
      hide Run, Legal, Heard;
      Preempt(gap);
      deadCount, pc := graveYard[prevTomb], Clear;
      Log(Step);
    }

    method BurnTomb(gap: seq<Burst>)
      requires Valid() && handler == Off && pc == Clear
      modifies this`live, this`zombies, this`pending, this`trace, this`handler, graveYard
      modifies this`pc
      ensures Valid() && handler == Off && pc == Subtract && graveYard[prevTomb] == 0
      ensures Heard() == old(Heard())
      ensures prevTomb == 1 - currTomb ==> InUse() == old(InUse())
    {
      hide Run, Legal, Heard;
      Preempt(gap);
      graveYard[prevTomb], pc := 0, Subtract;
      Log(Step);
    }

    method Deduct(gap: seq<Burst>)
      requires Valid() && handler == Off && pc == Subtract
      modifies this`live, this`zombies, this`pending, this`trace, this`handler, graveYard
      modifies this`pc, this`childCount
      ensures Valid() && handler == Off && pc == Top
      ensures Heard() == old(Heard())
      ensures childCount == old(childCount) - deadCount
      ensures InUse() == old(InUse())
      ensures graveYard[1 - currTomb] == old(graveYard[1 - currTomb])
    {
      hide Run, Legal, Heard;
      Preempt(gap);
      childCount, pc := childCount - deadCount, Top;
      Log(Step);
    }

    method CheckLimit() returns (free: bool)
      requires Valid() && handler == Off && pc == Gate
      modifies this`pc, this`trace
      ensures Valid() && free == (childCount < connLimit) && pc == if free then Fork else Top
      ensures Heard() == if free then old(Heard()) else old(Heard()) + [Refused]
    {
      free := !(childCount >= connLimit);
      pc := if free then Fork else Top;
      Log(Step);
    }

    method ForkChild(ok: bool, gap: seq<Burst>)
      requires Valid() && handler == Off && pc == Fork
      modifies this`live, this`zombies, this`pending, this`trace, this`handler, graveYard
      modifies this`pc
      ensures Valid() && handler == Off && InUse() == old(InUse()) + (if ok then 1 else 0)
      ensures pc == if ok then Count else Top
      ensures Heard() == old(Heard()) + [if ok then Served else Unserved]
    {
      hide Run, Legal, Heard;
      Preempt(gap);
      if ok {
        live, pc := live + 1, Count;
        Log(Step);
      } else {
        pc := Top;
        Log(ForkFails);
      }
    }

    method CountChild(gap: seq<Burst>)
      requires Valid() && handler == Off && pc == Count
      modifies this`live, this`zombies, this`pending, this`trace, this`handler, graveYard
      modifies this`pc, this`childCount
      ensures Valid() && handler == Off && pc == Top && InUse() == old(InUse())
      ensures Heard() == old(Heard())
      ensures childCount == old(childCount) + 1
    {
      hide Run, Legal, Heard;
      Preempt(gap);
      childCount, pc := childCount + 1, Top;
      Log(Step);
    }

    method SelectReturns(e: Event)
      requires Valid() && handler == Off && pc == Top && (e == Interrupted || e == Ready || e == Nothing || e == Stop)
      modifies this`pc, this`trace
      ensures Valid()
      ensures pc == match e case Interrupted => Test case Ready => Gate case Stop => Stopped case _ => Top
      ensures Heard() == match e
                         case Interrupted => old(Heard()) + [Failed]
                         case Nothing => old(Heard()) + [Quiet]
                         case Stop => old(Heard()) + [Ended]
                         case _ => old(Heard())
    {
      pc := match e case Interrupted => Test case Ready => Gate case Stop => Stopped case _ => Top;
      Log(e);
    }

    // -------------------------------------------------------------- the main loop

    /** Remember the tomb and switch to the other one. */
    method Retire(gaps: seq<seq<Burst>>) returns (ghost retired: int)
      requires Valid() && handler == Off && pc == Remember
      modifies this`live, this`zombies, this`pending, this`trace, this`handler, graveYard
      modifies this`pc, this`prevTomb, this`nextTomb, this`currTomb
      ensures Valid() && handler == Off && pc == Read
      ensures Heard() == old(Heard())
      ensures prevTomb == old(currTomb) && currTomb == 1 - old(currTomb)
      ensures retired == graveYard[prevTomb] >= old(graveYard[currTomb])
      ensures retired + InUse() == old(InUse())
    {
      hide Run, Legal, Heard;
      RememberTomb(Gap(gaps, 1));
      LoadSwitch(Gap(gaps, 2));
      retired := StoreSwitch(Gap(gaps, 3));
    }

    /** Read the retired tomb, empty it and correct the count. */
    method Burn(gaps: seq<seq<Burst>>)
      requires Valid() && handler == Off && pc == Read && prevTomb == 1 - currTomb
      modifies this`live, this`zombies, this`pending, this`trace, this`handler, graveYard
      modifies this`pc, this`deadCount, this`childCount
      ensures Valid() && handler == Off && pc == Top
      ensures Heard() == old(Heard())
      ensures childCount == old(childCount) - old(graveYard[prevTomb]) && graveYard[prevTomb] == 0
      ensures InUse() == old(InUse())
    {
      hide Run, Legal, Heard;
      ReadDead(Gap(gaps, 4));
      BurnTomb(Gap(gaps, 5));
      Deduct(Gap(gaps, 6));
    }

    /**
     The harvest after an interrupted select, with the kernel striking between any two statements.
     Its whole effect is one atomic transfer: what the old tomb held at the swap leaves the count,
     and leaves the books, once.
     */
    method Harvest(gaps: seq<seq<Burst>>) returns (ghost retired: int)
      requires Valid() && handler == Off && pc == Top
      modifies this, graveYard
      ensures Valid() && handler == Off && pc == Top && graveYard == old(graveYard)
      ensures childCount == old(childCount) - retired && retired + InUse() == old(InUse())
      ensures retired >= old(graveYard[currTomb])
      ensures currTomb == if retired > 0 then 1 - old(currTomb) else old(currTomb)
      ensures childCount == InUse() && Heard() == old(Heard()) + [Failed]
    {
      hide Run, Legal, Heard;
      SelectReturns(Interrupted);
      Preempt(Gap(gaps, 0));
      TombsNatural();
      var found := TestTomb();
      retired := 0;
      if found {
        retired := Retire(gaps);
        Burn(gaps);
      }
      CountIsInUse();
    }

    /** A connection: refused at the limit, otherwise handed to a forked child. */
    method Accept(forked: bool, gaps: seq<seq<Burst>>) returns (served: bool)
      requires Valid() && handler == Off && pc == Top
      modifies this, graveYard
      ensures Valid() && handler == Off && pc == Top && graveYard == old(graveYard)
      ensures served <==> forked && old(childCount) < connLimit
      ensures childCount == old(childCount) + (if served then 1 else 0)
      ensures InUse() == old(InUse()) + (if served then 1 else 0)
      ensures Heard() == old(Heard()) + [if served then Served else if forked then Refused
                                         else if old(childCount) < connLimit then Unserved else Refused]
    {
      hide Run, Legal, Heard;
      SelectReturns(Ready);
      Preempt(Gap(gaps, 0));
      served := CheckLimit();
      if served {
        ForkChild(forked, Gap(gaps, 1));
        served := forked;
        if forked {
          CountChild(Gap(gaps, 2));
        }
      }
    }

    /** One turn that stays in the loop. */
    method TakeTurn(t: Turn)
      requires Valid() && handler == Off && pc == Top && (t.SelectFailed? ==> t.eintr)
      modifies this, graveYard
      ensures Valid() && handler == Off && pc == Top && graveYard == old(graveYard)
      ensures |Heard()| == |old(Heard())| + 1 && old(Heard()) <= Heard() && Answers(t, Heard()[|old(Heard())|])
    {
      hide Run, Legal, Heard;
      match t {
        case SelectFailed(_, gaps) =>
          var _ := Harvest(gaps);
        case Connection(forked, gaps) =>
          var _ := Accept(forked, gaps);
        case Idle(gap) =>
          Preempt(gap);
          SelectReturns(Nothing);
      }
    }

    /**
     The accept loop over any script: every turn up to the first select that fails for good is taken, in
     order, and comes to what the script says or to a refusal at the limit; and the count is always the
     children not yet struck off.
     */
    method MainLoop(turns: seq<Turn>)
      requires Valid() && handler == Off && pc == Top
      modifies this, graveYard
      ensures Valid() && pc == Stopped
      ensures var n, was := TurnsTaken(turns), |old(Heard())|;
              && |Heard()| == was + n + 1 && old(Heard()) <= Heard() && Heard()[was + n] == Ended
              && forall k :: 0 <= k < n ==> Answers(turns[k], Heard()[was + k])
      ensures childCount == InUse() && 0 <= childCount <= connLimit && live + zombies <= connLimit
    {
      hide Run, Legal, Heard, TurnsTaken, Answers;
      ghost var was := |Heard()|;
      var i := 0;
      assert turns[0..] == turns;
      while i < |turns|
        invariant Valid() && handler == Off && pc == Top
        invariant i <= |turns| && graveYard == old(graveYard)
        invariant TurnsTaken(turns) == i + TurnsTaken(turns[i..])
        decreases |turns| - i
        invariant old(Heard()) <= Heard() && |Heard()| == was + i
        invariant forall k :: 0 <= k < i ==> Answers(turns[k], Heard()[was + k])
      {
        if turns[i].SelectFailed? && !turns[i].eintr {
          break;
        }
        OneTurnTaken(turns, i);
        TakeTurn(turns[i]);
        i := i + 1;
      }
      NoTurnTaken(turns, i);
      SelectReturns(Stop);
      CountIsInUse();
    }

    lemma TombsNatural()
      requires Valid()
      ensures graveYard[currTomb] >= 0
    {
      hide Run, Legal;
      InvRun(connLimit, trace);
    }

    lemma CountIsInUse()
      requires Valid() && (pc == Top || pc == Stopped) && handler == Off
      ensures childCount == InUse() && 0 <= childCount <= connLimit && live + zombies <= connLimit
    {
      hide Run, Legal;
      InvRun(connLimit, trace);
    }
  }
}
