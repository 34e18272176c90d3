/**
 The child accounting of the master process (src/main.c) as a transition system.

 The main loop is cut into the single reads and writes of the two tombs, and the SIGCHLD
 handler into its waitpid calls and its burials.  Between any two steps of the main loop the
 kernel may kill a child and run the handler; while the handler is active the main loop is
 suspended.  A run is a legal sequence of events, so a theorem about every run is a theorem
 about every interleaving.
 */
module ChildAccounting {

  /** Where the main loop stands; `Stopped` is after the loop. */
  datatype Pc = Top | Test | Remember | SwapLoad | SwapStore | Read | Clear | Subtract | Gate | Fork | Count | Stopped

  /** Where the handler stands; `Leaving` is after the break, before the return. */
  datatype HandlerPc = Off | WaitPid | Bury | Leaving

  type Tomb = i: int | 0 <= i < 2

  datatype State = State(
    limit: nat,
    pc: Pc, prevTomb: Tomb, nextTomb: Tomb, deadCount: int, childCount: int,
    currTomb: Tomb, tomb0: int, tomb1: int,
    handler: HandlerPc,
    live: nat, zombies: nat, pending: bool)

  datatype Event =
    | Die          // a child exits: it becomes a zombie and SIGCHLD is raised
    | Deliver      // the kernel enters the handler and clears the pending signal
    | Reap         // waitpid returns a child
    | NoZombie     // waitpid returns 0 or less: the loop breaks
    | BuryOne      // the current tomb is incremented
    | Return       // the handler returns
    | Interrupted  // select fails with EINTR
    | Ready        // select reports a connection and accept succeeds
    | Nothing      // any other turn of the loop that stays in it
    | Stop         // the loop ends
    | Step         // the next deterministic micro-step of the main loop
    | ForkFails    // fork returns -1

  function Start(limit: nat): State {
    State(limit, Top, 0, 0, 0, 0, 0, 0, 0, Off, 0, 0, false)
  }

  /** GraveYard[i]. */
  function At(s: State, i: Tomb): int { if i == 0 then s.tomb0 else s.tomb1 }

  function Put(s: State, i: Tomb, v: int): State { if i == 0 then s.(tomb0 := v) else s.(tomb1 := v) }

  predicate Enabled(s: State, e: Event) {
    match e
    case Die => s.live > 0
    case Deliver => s.pending && s.handler == Off
    case Reap => s.handler == WaitPid && s.zombies > 0
    case NoZombie => s.handler == WaitPid && s.zombies == 0
    case BuryOne => s.handler == Bury
    case Return => s.handler == Leaving
    case Interrupted | Ready | Nothing | Stop => s.handler == Off && s.pc == Top
    case Step => s.handler == Off && s.pc != Top && s.pc != Stopped
    case ForkFails => s.handler == Off && s.pc == Fork
  }

  /** The next micro-step of the main loop; `Fork` is a successful fork. */
  function MainStep(s: State): State {
    match s.pc
    case Test => s.(pc := if At(s, s.currTomb) != 0 then Remember else Top)
    case Remember => s.(pc := SwapLoad, prevTomb := s.currTomb)
    case SwapLoad => s.(pc := SwapStore, nextTomb := if s.currTomb == 0 then 1 else 0)
    case SwapStore => s.(pc := Read, currTomb := s.nextTomb)
    case Read => s.(pc := Clear, deadCount := At(s, s.prevTomb))
    case Clear => Put(s, s.prevTomb, 0).(pc := Subtract)
    case Subtract => s.(pc := Top, childCount := s.childCount - s.deadCount)
    case Gate => s.(pc := if s.childCount >= s.limit then Top else Fork)
    case Fork => s.(pc := Count, live := s.live + 1)
    case Count => s.(pc := Top, childCount := s.childCount + 1)
    case Top | Stopped => s
  }

  function Next(s: State, e: Event): State
    requires Enabled(s, e)
  {
    match e
    case Die => s.(live := s.live - 1, zombies := s.zombies + 1, pending := true)
    case Deliver => s.(pending := false, handler := WaitPid)
    case Reap => s.(zombies := s.zombies - 1, handler := Bury)
    case NoZombie => s.(handler := Leaving)
    case BuryOne => Put(s, s.currTomb, At(s, s.currTomb) + 1).(handler := WaitPid)
    case Return => s.(handler := Off)
    case Interrupted => s.(pc := Test)
    case Ready => s.(pc := Gate)
    case Nothing => s
    case Stop => s.(pc := Stopped)
    case Step => MainStep(s)
    case ForkFails => s.(pc := Top)
  }

  predicate Legal(limit: nat, es: seq<Event>)
    decreases |es|, 0
  {
    es == [] ||
    var before := es[..|es| - 1];
    Legal(limit, before) && Enabled(Run(limit, before), es[|es| - 1])
  }

  function Run(limit: nat, es: seq<Event>): State
    requires Legal(limit, es)
    decreases |es|, 1
  {
    if es == [] then Start(limit) else Next(Run(limit, es[..|es| - 1]), es[|es| - 1])
  }

  /** One more event of a run. */
  lemma Extend(limit: nat, es: seq<Event>, e: Event)
    requires Legal(limit, es) && Enabled(Run(limit, es), e)
    ensures Legal(limit, es + [e])
    ensures Run(limit, es + [e]) == Next(Run(limit, es), e)
  {
    assert (es + [e])[..|es|] == es;
  }

  // ---------------------------------------------------------------- the invariant

  /** Children forked and not yet counted by the main loop. */
  function Uncounted(s: State): nat { if s.pc == Count then 1 else 0 }

  /** A child returned by waitpid and not yet buried. */
  function InHand(s: State): nat { if s.handler == Bury then 1 else 0 }

  /** Deaths taken out of a tomb and not yet subtracted. */
  function InFlight(s: State): int { if s.pc == Subtract then s.deadCount else 0 }

  function Buried(s: State): int {
    s.tomb0 + s.tomb1
  }

  predicate Conserved(s: State) {
    s.childCount + Uncounted(s) == s.live + s.zombies + InHand(s) + Buried(s) + InFlight(s)
  }

  predicate Bounded(s: State) {
    && s.childCount + Uncounted(s) <= s.limit
    && (s.pc == Fork ==> s.childCount < s.limit)
  }

  predicate TombsInOrder(s: State) {
    var other := 1 - s.currTomb;
    && s.tomb0 >= 0 && s.tomb1 >= 0
    && (s.pc != Read && s.pc != Clear ==> At(s, other) == 0)
    && (s.pc == SwapLoad || s.pc == SwapStore ==> s.prevTomb == s.currTomb)
    && (s.pc == SwapStore ==> s.nextTomb == other)
    && (s.pc == Read || s.pc == Clear || s.pc == Subtract ==> s.prevTomb == other)
    && (s.pc == Clear ==> s.deadCount == At(s, other))
    && (s.pc == Subtract ==> s.deadCount >= 0)
  }

  predicate Noticed(s: State) {
    s.zombies > 0 ==> s.pending || s.handler == WaitPid || s.handler == Bury
  }

  predicate Inv(s: State) {
    Conserved(s) && Bounded(s) && TombsInOrder(s) && Noticed(s)
  }

  lemma ConservedStep(s: State, e: Event)
    requires Inv(s) && Enabled(s, e)
    ensures Conserved(Next(s, e)) && Bounded(Next(s, e))
  {
  }

  lemma TombsStep(s: State, e: Event)
    requires Inv(s) && Enabled(s, e)
    ensures TombsInOrder(Next(s, e))
  {
    hide MainStep, Conserved, Bounded;
    if e == Step {
      TombsAmongMain(s);
    }
  }

  lemma TombsAmongMain(s: State)
    requires TombsInOrder(s) && Enabled(s, Step)
    ensures TombsInOrder(MainStep(s))
  {
  }

  lemma InvStep(s: State, e: Event)
    requires Inv(s) && Enabled(s, e)
    ensures Inv(Next(s, e)) && Next(s, e).limit == s.limit
  {
    ConservedStep(s, e);
    TombsStep(s, e);
  }

  lemma {:induction false} InvRun(limit: nat, es: seq<Event>)
    requires Legal(limit, es)
    ensures Inv(Run(limit, es)) && Run(limit, es).limit == limit
  {
    if es != [] {
      InvRun(limit, es[..|es| - 1]);
      InvStep(Run(limit, es[..|es| - 1]), es[|es| - 1]);
    }
  }

  // ---------------------------------------------------------------- theorems over all runs

  /** No death is lost or counted twice, wherever main and handler stand. */
  lemma ChildConservation(limit: nat, es: seq<Event>)
    requires Legal(limit, es)
    ensures var s := Run(limit, es);
            s.childCount + Uncounted(s) == s.live + s.zombies + InHand(s) + Buried(s) + InFlight(s)
  {
    InvRun(limit, es);
  }

  lemma CountStaysNatural(s: State, e: Event)
    requires Inv(s) && Enabled(s, e) && s.childCount >= 0
    ensures Next(s, e).childCount >= 0
  {
  }

  lemma WithinLimit(s: State)
    requires Inv(s)
    ensures s.childCount <= s.limit && s.live + s.zombies <= s.limit
  {
  }

  /** The limit bounds both the counter and the children that are not reaped yet. */
  lemma {:induction false} ConnectionBound(limit: nat, es: seq<Event>)
    requires Legal(limit, es)
    ensures var s := Run(limit, es);
            0 <= s.childCount <= limit && s.live + s.zombies <= limit
  {
    hide Inv, Next, Enabled;
    InvRun(limit, es);
    WithinLimit(Run(limit, es));
    if es != [] {
      var before := es[..|es| - 1];
      ConnectionBound(limit, before);
      InvRun(limit, before);
      CountStaysNatural(Run(limit, before), es[|es| - 1]);
    }
  }

  /** A zombie is never forgotten: a signal is pending or the handler still loops. */
  lemma {:induction false} CoalescedSignals(limit: nat, es: seq<Event>)
    requires Legal(limit, es)
    ensures var s := Run(limit, es);
            s.zombies > 0 ==> s.pending || s.handler == WaitPid || s.handler == Bury
  {
    InvRun(limit, es);
  }

  /** Outside the read and the clear of a harvest, the tomb not in use is empty. */
  lemma {:induction false} OtherTombIsEmpty(limit: nat, es: seq<Event>)
    requires Legal(limit, es)
    ensures var s := Run(limit, es);
            (s.pc != Read && s.pc != Clear ==> At(s, 1 - s.currTomb) == 0)
  {
    InvRun(limit, es);
    assert TombsInOrder(Run(limit, es));
  }

  // ---------------------------------------------------------------- books kept over the events

  function Tally(limit: nat, es: seq<Event>, weigh: (State, Event) -> int): int
    requires Legal(limit, es)
  {
    if es == [] then 0
    else Tally(limit, es[..|es| - 1], weigh) + weigh(Run(limit, es[..|es| - 1]), es[|es| - 1])
  }

  function Forked(s: State, e: Event): int { if e == Step && s.pc == Fork then 1 else 0 }

  function Died(s: State, e: Event): int { if e == Die then 1 else 0 }

  /** What the swap of the tombs retires. */
  function Retired(s: State, e: Event): int {
    if e == Step && s.pc == SwapStore then At(s, s.currTomb) else 0
  }

  function Deducted(s: State, e: Event): int { if e == Step && s.pc == Subtract then s.deadCount else 0 }

  /** Taken by the latest swap and not yet deducted. */
  function Taken(s: State): int {
    match s.pc
    case Read => At(s, s.prevTomb)
    case Clear | Subtract => s.deadCount
    case _ => 0
  }

  /** What one event from s to t does to the books. */
  predicate Booked(s: State, e: Event, t: State) {
    && t.live == s.live + Forked(s, e) - Died(s, e)
    && t.zombies + InHand(t) + Buried(t) + InFlight(t) + Deducted(s, e)
       == s.zombies + InHand(s) + Buried(s) + InFlight(s) + Died(s, e)
    && t.childCount + Uncounted(t) == s.childCount + Uncounted(s) + Forked(s, e) - Deducted(s, e)
    && Taken(t) + Deducted(s, e) == Taken(s) + Retired(s, e)
  }

  lemma BooksStep(s: State, e: Event)
    requires Inv(s) && Enabled(s, e)
    ensures Booked(s, e, Next(s, e))
  {
    hide MainStep, Conserved, Bounded;
    if e == Step {
      BooksAmongMain(s);
    }
  }

  lemma BooksAmongMain(s: State)
    requires TombsInOrder(s) && Enabled(s, Step)
    ensures Booked(s, Step, MainStep(s))
  {
  }

  /**
   The books balance against the history itself: the living are the forks less the deaths, and
   every death ever is a zombie, in the handler's hand, in a tomb, in flight, or deducted once.
   */
  lemma {:induction false} EveryDeathOnce(limit: nat, es: seq<Event>)
    requires Legal(limit, es)
    ensures var s := Run(limit, es);
            && s.live == Tally(limit, es, Forked) - Tally(limit, es, Died)
            && Tally(limit, es, Died)
               == s.zombies + InHand(s) + Buried(s) + InFlight(s) + Tally(limit, es, Deducted)
            && s.childCount + Uncounted(s) == Tally(limit, es, Forked) - Tally(limit, es, Deducted)
  {
    if es != [] {
      var before := es[..|es| - 1];
      EveryDeathOnce(limit, before);
      InvRun(limit, before);
      BooksStep(Run(limit, before), es[|es| - 1]);
    }
  }

  /**
   The swap is the linearisation point: over any run, what has been deducted plus what is taken
   but not yet deducted is exactly what the tombs held at the instants they were swapped out.
   */
  lemma {:induction false} SwapIsLinearisationPoint(limit: nat, es: seq<Event>)
    requires Legal(limit, es)
    ensures Tally(limit, es, Retired) == Tally(limit, es, Deducted) + Taken(Run(limit, es))
  {
    if es != [] {
      var before := es[..|es| - 1];
      SwapIsLinearisationPoint(limit, before);
      InvRun(limit, before);
      BooksStep(Run(limit, before), es[|es| - 1]);
    }
  }

  // ---------------------------------------------------------------- one handler run

  predicate OnlyHandler(es: seq<Event>) {
    forall i :: 0 <= i < |es| ==> es[i] == Die || es[i] == Reap || es[i] == BuryOne
  }

  function Deaths(es: seq<Event>): nat {
    if es == [] then 0 else Deaths(es[..|es| - 1]) + (if es[|es| - 1] == Die then 1 else 0)
  }

  /** A stretch of the run during which the handler loops: everybody is buried in one tomb. */
  lemma {:induction false} HandlerBuries(limit: nat, es: seq<Event>, more: seq<Event>)
    requires Legal(limit, es) && Legal(limit, es + more) && OnlyHandler(more)
    requires Run(limit, es).handler == WaitPid
    ensures var s, t := Run(limit, es), Run(limit, es + more);
            && t.currTomb == s.currTomb && t.pc == s.pc && t.childCount == s.childCount
            && (t.handler == WaitPid || t.handler == Bury)
            && At(t, 1 - t.currTomb) == At(s, 1 - s.currTomb)
            && At(t, t.currTomb) + InHand(t) + t.zombies == At(s, s.currTomb) + s.zombies + Deaths(more)
  {
    InvRun(limit, es);
    if more == [] {
      assert es + more == es;
    } else {
      var fewer := more[..|more| - 1];
      assert (es + more)[..|es + more| - 1] == es + fewer;
      HandlerBuries(limit, es, fewer);
    }
  }

  /**
   However many deaths were merged into one signal, a handler run that has come to its break has
   buried every zombie there was on entry and everyone who died meanwhile.
   */
  lemma OneRunReapsAll(limit: nat, es: seq<Event>, more: seq<Event>)
    requires Legal(limit, es) && Enabled(Run(limit, es), Deliver)
    requires OnlyHandler(more) && Legal(limit, es + [Deliver] + more + [NoZombie])
    ensures var s, t := Run(limit, es), Run(limit, es + [Deliver] + more + [NoZombie]);
            && t.handler == Leaving && t.zombies == 0
            && At(t, t.currTomb) == At(s, s.currTomb) + s.zombies + Deaths(more)
            && At(t, 1 - t.currTomb) == At(s, 1 - s.currTomb) && t.currTomb == s.currTomb
  {
    var entered := es + [Deliver];
    Extend(limit, es, Deliver);
    var all := entered + more + [NoZombie];
    assert all[..|all| - 1] == entered + more;
    HandlerBuries(limit, entered, more);
  }

  // ---------------------------------------------------------------- refinement

  /** The same bookkeeping with one counter of the dead that is taken atomically. */
  datatype Abstract = Abstract(
    limit: nat, live: nat, zombies: nat, inHand: nat, dead: int, taken: int, uncounted: nat, childCount: int)

  datatype Action = ADie | AReap | ABury | ATakeAll | ADeduct | AFork | ACount | ASkip

  function AStart(limit: nat): Abstract { Abstract(limit, 0, 0, 0, 0, 0, 0, 0) }

  predicate AEnabled(a: Abstract, act: Action) {
    match act
    case ADie => a.live > 0
    case AReap => a.zombies > 0 && a.inHand == 0
    case ABury => a.inHand == 1
    case ATakeAll => a.dead > 0 && a.taken == 0
    case ADeduct => a.taken > 0
    case AFork => a.childCount < a.limit && a.uncounted == 0 && a.taken == 0
    case ACount => a.uncounted == 1
    case ASkip => true
  }

  function ANext(a: Abstract, act: Action): Abstract
    requires AEnabled(a, act)
  {
    match act
    case ADie => a.(live := a.live - 1, zombies := a.zombies + 1)
    case AReap => a.(zombies := a.zombies - 1, inHand := 1)
    case ABury => a.(inHand := 0, dead := a.dead + 1)
    case ATakeAll => a.(dead := 0, taken := a.dead)
    case ADeduct => a.(childCount := a.childCount - a.taken, taken := 0)
    case AFork => a.(live := a.live + 1, uncounted := 1)
    case ACount => a.(childCount := a.childCount + 1, uncounted := 0)
    case ASkip => a
  }

  predicate ALegal(limit: nat, acts: seq<Action>)
    decreases |acts|, 0
  {
    acts == [] ||
    var before := acts[..|acts| - 1];
    ALegal(limit, before) && AEnabled(ARun(limit, before), acts[|acts| - 1])
  }

  function ARun(limit: nat, acts: seq<Action>): Abstract
    requires ALegal(limit, acts)
    decreases |acts|, 1
  {
    if acts == [] then AStart(limit) else ANext(ARun(limit, acts[..|acts| - 1]), acts[|acts| - 1])
  }

  function Abs(s: State): Abstract {
    Abstract(s.limit, s.live, s.zombies, InHand(s), At(s, s.currTomb), Taken(s), Uncounted(s), s.childCount)
  }

  function AbsEvent(s: State, e: Event): Action {
    match e
    case Die => ADie
    case Reap => AReap
    case BuryOne => ABury
    case Step => (match s.pc
                  case SwapStore => ATakeAll
                  case Subtract => ADeduct
                  case Fork => AFork
                  case Count => ACount
                  case _ => ASkip)
    case _ => ASkip
  }

  function AbsEvents(limit: nat, es: seq<Event>): seq<Action>
    requires Legal(limit, es)
  {
    if es == [] then []
    else AbsEvents(limit, es[..|es| - 1]) + [AbsEvent(Run(limit, es[..|es| - 1]), es[|es| - 1])]
  }

  /** A harvest only starts on a tomb that is not empty, and the tomb can only fill until the swap. */
  predicate Worthwhile(s: State) {
    && (s.pc == Remember || s.pc == SwapLoad || s.pc == SwapStore ==> At(s, s.currTomb) > 0)
    && (s.pc == Read ==> At(s, s.prevTomb) > 0)
    && (s.pc == Clear || s.pc == Subtract ==> s.deadCount > 0)
  }

  lemma WorthwhileStep(s: State, e: Event)
    requires TombsInOrder(s) && Worthwhile(s) && Enabled(s, e)
    ensures Worthwhile(Next(s, e))
  {
    hide MainStep;
    if e == Step {
      WorthwhileAmongMain(s);
    }
  }

  lemma WorthwhileAmongMain(s: State)
    requires TombsInOrder(s) && Worthwhile(s) && Enabled(s, Step)
    ensures Worthwhile(MainStep(s))
  {
  }

  lemma SimulatesAmongMain(s: State)
    requires Inv(s) && Worthwhile(s) && Enabled(s, Step)
    ensures AEnabled(Abs(s), AbsEvent(s, Step))
    ensures Abs(Next(s, Step)) == ANext(Abs(s), AbsEvent(s, Step))
  {
  }

  /** One event of the protocol is one action of the abstract machine, or none. */
  lemma Simulates(s: State, e: Event)
    requires Inv(s) && Worthwhile(s) && Enabled(s, e)
    ensures AEnabled(Abs(s), AbsEvent(s, e))
    ensures Abs(Next(s, e)) == ANext(Abs(s), AbsEvent(s, e))
  {
    if e == Step {
      SimulatesAmongMain(s);
    }
  }

  /**
   Refinement: every run of the two-tomb protocol is, action by action, a run of the machine
   whose dead counter is taken and zeroed in one step, and the swap is that step.
   */
  lemma {:induction false} TwoTombsRefineAtomicCounter(limit: nat, es: seq<Event>)
    requires Legal(limit, es)
    ensures Inv(Run(limit, es)) && Worthwhile(Run(limit, es))
    ensures ALegal(limit, AbsEvents(limit, es))
    ensures ARun(limit, AbsEvents(limit, es)) == Abs(Run(limit, es))
  {
    if es != [] {
      var before, e := es[..|es| - 1], es[|es| - 1];
      TwoTombsRefineAtomicCounter(limit, before);
      var s := Run(limit, before);
      InvStep(s, e);
      WorthwhileStep(s, e);
      Simulates(s, e);
      var acts := AbsEvents(limit, before);
      assert (acts + [AbsEvent(s, e)])[..|acts|] == acts;
    }
  }
}
