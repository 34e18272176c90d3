/** TimerStart and TimerGet of src/proxy.c, and the two event loops that poll by them. */
module Timers {
  import opened Common

  datatype Timeval = Timeval(sec: int, usec: int)

  predicate Normal(t: Timeval) { 0 <= t.usec < 1_000_000 }

  function Micros(t: Timeval): int { t.sec * 1_000_000 + t.usec }

  function Millis(t: Timeval): int { t.sec * 1000 + t.usec / 1000 }

  /** timercmp(a,b,<) */
  predicate Before(a: Timeval, b: Timeval) {
    if a.sec == b.sec then a.usec < b.usec else a.sec < b.sec
  }

  /** What TimerGet yields; `Overflow` is the one signed multiplication leaving int. */
  datatype Reading = Left(ms: int) | Overflow

  /** TimerStart(sec) when the clock says now. */
  function Started(now: Timeval, sec: int): Timeval { now.(sec := now.sec + sec) }

  /** The whole milliseconds between now and the timer, modulo 2^32. */
  function Remaining(timer: Timeval, now: Timeval): Reading {
    if !Before(now, timer) then Left(0)
    else if !IsInt(Wrap32(timer.sec - now.sec) * 1000) then Overflow
    else Left(Wrap32(Millis(timer) - Millis(now)))
  }

  /**
   The values of TimerGet's expressions before each is stored in its int, from the multiplication on,
   which is the only one computed in int; the others are computed in long.
   */
  function Steps(timer: Timeval, now: Timeval): seq<int> {
    var product := Wrap32(timer.sec - now.sec) * 1000;
    if !IsInt(product) then [product]
    else
      var sum := product + timer.usec / 1000;
      [product, sum, Wrap32(sum) - now.usec / 1000]
  }

  predicate AllInt(steps: seq<int>) { forall k :: 0 <= k < |steps| ==> IsInt(steps[k]) }

  /** TimerGet, narrowing step by narrowing step; `steps` are the values narrowed, or multiplied. */
  method TimerGet(timer: Timeval, now: Timeval) returns (r: Reading, ghost steps: seq<int>)
    ensures r == Remaining(timer, now)
    ensures steps == if Before(now, timer) then Steps(timer, now) else []
  {
    hide Wrap32;
    var back := 0;
    steps := [];
    if Before(now, timer) {
      back := Wrap32(timer.sec);
      back := Wrap32(back - now.sec);
      WrapAdd(timer.sec, -now.sec);
      steps := [back * 1000];
      if !IsInt(back * 1000) {
        return Overflow, steps;
      }
      back := back * 1000;
      WrapAdd(back + timer.usec / 1000, -(now.usec / 1000));
      WrapThousand(timer.sec - now.sec, timer.usec / 1000 - now.usec / 1000);
      steps := steps + [back + timer.usec / 1000];
      back := Wrap32(back + timer.usec / 1000);
      steps := steps + [back - now.usec / 1000];
      back := Wrap32(back - now.usec / 1000);
    }
    r := Left(back);
  }

  /** Millis is the number of whole milliseconds on the clock. */
  lemma MillisIsFloor(t: Timeval)
    requires Normal(t)
    ensures Millis(t) == Micros(t) / 1000
    ensures 0 <= Micros(t) - 1000 * Millis(t) < 1000
  {
    assert Micros(t) == 1000 * Millis(t) + t.usec % 1000;
  }

  /**
   Before the deadline, TimerGet is the exact difference of the floors precisely when the seconds
   left survive the multiplication and the difference itself is an int.
   */
  lemma ExactWhen(timer: Timeval, now: Timeval)
    requires Normal(timer) && Normal(now) && Before(now, timer)
    ensures Remaining(timer, now) == Left(Micros(timer) / 1000 - Micros(now) / 1000)
       <==> timer.sec - now.sec <= 2147483 && Micros(timer) / 1000 - Micros(now) / 1000 <= INT_MAX
  {
    MillisIsFloor(timer);
    MillisIsFloor(now);
  }

  /** Wherever it is exact, the reading is non-negative and within 1 ms of the truth. */
  lemma {:induction false} WithinOneMilli(timer: Timeval, now: Timeval)
    requires Normal(timer) && Normal(now) && Before(now, timer)
    requires timer.sec - now.sec <= 2147483 && Micros(timer) / 1000 - Micros(now) / 1000 <= INT_MAX
    ensures var r := Remaining(timer, now);
            && r == Left(Micros(timer) / 1000 - Micros(now) / 1000)
            && r.ms >= 0
            && -1000 < Micros(timer) - Micros(now) - 1000 * r.ms < 1000
  {
    ExactWhen(timer, now);
    MillisIsFloor(timer);
    MillisIsFloor(now);
  }

  /** All the instants at which a timer of sec seconds, started at start, is read while it runs. */
  predicate Running(start: Timeval, sec: int, now: Timeval) {
    Normal(start) && Normal(now) && Micros(start) <= Micros(now) && Before(now, Started(start, sec))
  }

  predicate ExactlyRead(timer: Timeval, now: Timeval) {
    Remaining(timer, now) == Left(Micros(timer) / 1000 - Micros(now) / 1000)
  }

  lemma RunningReading(start: Timeval, sec: int, now: Timeval)
    requires sec <= 2147483 && Running(start, sec, now)
    ensures ExactlyRead(Started(start, sec), now)
    ensures var timer := Started(start, sec);
            0 <= timer.sec - now.sec <= sec && Micros(timer) / 1000 - Micros(now) / 1000 <= INT_MAX
  {
    ExactWhen(Started(start, sec), now);
  }

  /** A longer timer overflows the first time it is read. */
  lemma FirstReadingOverflows(start: Timeval, sec: int)
    requires Normal(start) && 2147483 < sec <= INT_MAX
    ensures Remaining(Started(start, sec), start) == Overflow
    ensures Running(start, sec, start) && !ExactlyRead(Started(start, sec), start)
  {
  }

  /**
   2147483 seconds is the longest timeout all of whose readings are exact while the timer runs; a
   longer one is not even read once.
   */
  lemma ExactThreshold(sec: int)
    requires 0 < sec <= INT_MAX
    ensures (forall start, now :: Running(start, sec, now) ==> ExactlyRead(Started(start, sec), now)) <==>
            sec <= 2147483
  {
    hide Running, ExactlyRead, Remaining, Started;
    if sec <= 2147483 {
      forall start, now | Running(start, sec, now)
        ensures ExactlyRead(Started(start, sec), now)
      {
        RunningReading(start, sec, now);
      }
    } else {
      FirstReadingOverflows(Timeval(0, 0), sec);
    }
  }

  /**
   2147482 seconds is the longest timeout for which no value TimerGet computes ever leaves int; one
   second more, and only the narrowing of the sum and of the difference bring the reading back.
   */
  lemma OverflowThreshold(sec: int)
    requires 0 < sec <= INT_MAX
    ensures (forall start, now :: Running(start, sec, now) ==> AllInt(Steps(Started(start, sec), now))) <==>
            sec <= 2147482
  {
    if sec <= 2147482 {
      forall start, now | Running(start, sec, now)
        ensures AllInt(Steps(Started(start, sec), now))
      {
        RunningReading(start, sec, now);
        assert -1000 < now.usec / 1000 < 1000 && 0 <= start.usec / 1000 < 1000;
      }
    } else {
      var start := Timeval(0, 999_999);
      var steps := Steps(Started(start, sec), start);
      assert Running(start, sec, start);
      assert !IsInt(steps[0]) || !IsInt(steps[1]);
    }
  }

  // ---------------------------------------------------------------- the event loops

  /** The longest timeout that can be read at all (ExactThreshold). */
  const LONGEST := 2147483

  /** The timeouts in force; a session timeout of 0 or less means none (src/proxy.c:1690). */
  datatype Limits = Limits(idle: int, session: int)

  predicate Sane(l: Limits) { 0 < l.idle <= LONGEST && l.session <= LONGEST }

  datatype Entry =
    | Reset(at: Timeval)
    | Poll(atIdle: Timeval, atSession: Timeval, ms: int)
    | IdleExit(at: Timeval)
    | SessionExit(atIdle: Timeval, at: Timeval)

  /** gettimeofday, call by call. */
  predicate Monotone(clock: seq<Timeval>) {
    && (forall i :: 0 <= i < |clock| ==> Normal(clock[i]))
    && (forall i, j :: 0 <= i < j < |clock| ==> Micros(clock[i]) <= Micros(clock[j]))
  }

  /** The latest reset in a log. */
  function LastReset(log: seq<Entry>): Option<Timeval> {
    if log == [] then None
    else if log[|log| - 1].Reset? then Some(log[|log| - 1].at)
    else LastReset(log[..|log| - 1])
  }

  /** By how much t lies past the instant sec seconds after since, in microseconds. */
  function Past(since: Timeval, sec: int, t: Timeval): int {
    Micros(t) - Micros(since) - sec * 1_000_000
  }

  /** What a single entry owes to the entries before it; `start` is when the session began. */
  predicate EntryHolds(l: Limits, start: Timeval, before: seq<Entry>, e: Entry) {
    LastReset(before).Some? ==>
    var since := LastReset(before).value;
    match e
    case Reset(_) => true
    case Poll(atIdle, atSession, ms) =>
      && ms >= 1
      && Past(since, l.idle, atIdle) < 0 && Past(since, l.idle, atIdle) + 1000 * ms < 1000
      && (l.session > 0 ==>
            Past(start, l.session, atSession) < 0 && Past(start, l.session, atSession) + 1000 * ms < 1000)
      && (|| Past(since, l.idle, atIdle) + 1000 * ms > -1000
          || (l.session > 0 && Past(start, l.session, atSession) + 1000 * ms > -1000))
    case IdleExit(at) =>
      forall j :: 0 <= j < |before| && before[j].Reset? ==> Past(before[j].at, l.idle, at) > -1000
    case SessionExit(_, at) => l.session > 0 && Past(start, l.session, at) > -1000
  }

  /** A reading of a timer started at `since`, on a clock that has not gone back. */
  lemma ReadingBounds(since: Timeval, sec: int, now: Timeval)
    requires Normal(since) && Normal(now) && Micros(since) <= Micros(now) && 0 < sec <= LONGEST
    ensures var r := Remaining(Started(since, sec), now);
            && r.Left? && r.ms >= 0
            && (r.ms == 0 ==> Past(since, sec, now) > -1000)
            && (r.ms > 0 ==> InTime(since, sec, now, r.ms))
  {
    var timer := Started(since, sec);
    assert Micros(timer) - Micros(now) == -Past(since, sec, now);
    if Before(now, timer) {
      RunningReading(since, sec, now);
      WithinOneMilli(timer, now);
    }
  }

  lemma IdleExitHolds(l: Limits, start: Timeval, log: seq<Entry>, at: Timeval)
    requires LastReset(log).Some? && NoLaterThan(log, LastReset(log).value)
    requires Past(LastReset(log).value, l.idle, at) > -1000
    ensures EntryHolds(l, start, log, IdleExit(at))
  {
  }

  lemma ResetHolds(l: Limits, start: Timeval, log: seq<Entry>, at: Timeval)
    ensures EntryHolds(l, start, log, Reset(at))
  {
  }

  lemma SessionExitHolds(l: Limits, start: Timeval, log: seq<Entry>, atIdle: Timeval, at: Timeval)
    requires l.session > 0 && Past(start, l.session, at) > -1000
    ensures EntryHolds(l, start, log, SessionExit(atIdle, at))
  {
  }

  /** What the two readings of a head come to, when both are positive. */
  lemma PollHolds(l: Limits, start: Timeval, log: seq<Entry>, atIdle: Timeval, atSession: Timeval, ms: int)
    requires LastReset(log).Some? && ms >= 1
    requires var r := Remaining(Started(LastReset(log).value, l.idle), atIdle);
             && r.Left? && ms <= r.ms && InTime(LastReset(log).value, l.idle, atIdle, r.ms)
             && if l.session <= 0 then ms == r.ms
                else
                  var q := Remaining(Started(start, l.session), atSession);
                  q.Left? && ms <= q.ms && InTime(start, l.session, atSession, q.ms) && (ms == r.ms || ms == q.ms)
    ensures EntryHolds(l, start, log, Poll(atIdle, atSession, ms))
  {
    hide Remaining;
  }

  /** The deadline is still ahead, and ms milliseconds come within 1 ms of it. */
  predicate InTime(since: Timeval, sec: int, now: Timeval, ms: int) {
    Past(since, sec, now) < 0 && -1000 < Past(since, sec, now) + 1000 * ms < 1000
  }

  predicate Honest(l: Limits, start: Timeval, log: seq<Entry>) {
    forall i :: 0 <= i < |log| ==> EntryHolds(l, start, log[..i], log[i])
  }

  predicate NoLaterThan(log: seq<Entry>, t: Timeval) {
    forall i :: 0 <= i < |log| && log[i].Reset? ==> Micros(log[i].at) <= Micros(t)
  }

  lemma HonestExtends(l: Limits, start: Timeval, log: seq<Entry>, e: Entry)
    requires Honest(l, start, log) && EntryHolds(l, start, log, e)
    ensures Honest(l, start, log + [e])
  {
    forall i | 0 <= i < |log + [e]|
      ensures EntryHolds(l, start, (log + [e])[..i], (log + [e])[i])
    {
      assert (log + [e])[..i] == log[..i];
      assert log[..|log|] == log;
    }
  }

  // ---------------------------------------------------------------- what a record must account for

  predicate IsExit(e: Entry) { e.IdleExit? || e.SessionExit? }

  /** The clock readings behind an entry, in the order they are made; the session timer is only read if there is one. */
  function ReadingsOf(l: Limits, e: Entry): seq<Timeval> {
    match e
    case Reset(at) => [at]
    case Poll(atIdle, atSession, _) => if l.session > 0 then [atIdle, atSession] else [atIdle]
    case IdleExit(at) => [at]
    case SessionExit(atIdle, at) => [atIdle, at]
  }

  function Readings(l: Limits, log: seq<Entry>): seq<Timeval> {
    if log == [] then [] else Readings(l, log[..|log| - 1]) + ReadingsOf(l, log[|log| - 1])
  }

  /** How many readings come before the loops: the first reset's, and the session timer's if there is one. */
  function First(l: Limits): nat { if l.session > 0 then 2 else 1 }

  /** When the session timer is started; without one no entry depends on it. */
  function StartOf(l: Limits, clock: seq<Timeval>): Timeval
    requires |clock| >= 2
  {
    if l.session > 0 then clock[1] else clock[0]
  }

  /** One turn of a loop: so many callbacks reset the idle timer before its head, and so many during its poll. */
  datatype Turn = Turn(before: nat, during: nat)

  datatype Kind = AReset | AHead

  function KindOf(e: Entry): Kind { if e.Reset? then AReset else AHead }

  function Kinds(log: seq<Entry>): seq<Kind> { seq(|log|, i requires 0 <= i < |log| => KindOf(log[i])) }

  function Resets(n: nat): seq<Kind> { seq(n, _ => AReset) }

  function TurnPlan(t: Turn): seq<Kind> { Resets(t.before) + [AHead] + Resets(t.during) }

  function LoopPlan(turns: seq<Turn>): seq<Kind> {
    if turns == [] then [] else LoopPlan(turns[..|turns| - 1]) + TurnPlan(turns[|turns| - 1])
  }

  /** The entries of a session that nothing cuts short: each loop begins with a reset. */
  function Plan(wait: seq<Turn>, relay: seq<Turn>): seq<Kind> {
    [AReset] + LoopPlan(wait) + [AReset] + LoopPlan(relay)
  }

  /** How many readings the clock must still give for one more entry. */
  function Width(l: Limits, k: Kind): nat { if k == AHead && l.session > 0 then 2 else 1 }

  /** The shorter of the two times left, where there are two. */
  function Nearer(l: Limits, idle: Reading, session: Reading): Reading {
    if l.session > 0 && session.Left? && idle.Left? && session.ms < idle.ms then session else idle
  }

  /** An entry of a head, by the readings it made and the timers it compared them with. */
  predicate HeadTold(l: Limits, made: seq<Timeval>, idle: Timeval, session: Timeval, e: Entry, time: Option<int>) {
    && ReadingsOf(l, e) == made
    && match e
       case Reset(_) => false
       case Poll(atIdle, atSession, ms) =>
         && time == Some(ms) && (l.session <= 0 ==> atSession == atIdle)
         && Left(ms) == Nearer(l, Remaining(idle, atIdle), Remaining(session, atSession))
       case IdleExit(at) => time.None? && Remaining(idle, at) == Left(0)
       case SessionExit(_, at) => time.None? && Remaining(session, at) == Left(0)
  }

  lemma IdleExitTold(l: Limits, idle: Timeval, session: Timeval, at: Timeval)
    requires Remaining(idle, at) == Left(0)
    ensures HeadTold(l, [at], idle, session, IdleExit(at), None)
  {
  }

  lemma SessionExitTold(l: Limits, idle: Timeval, session: Timeval, atIdle: Timeval, at: Timeval)
    requires Remaining(session, at) == Left(0)
    ensures HeadTold(l, [atIdle, at], idle, session, SessionExit(atIdle, at), None)
  {
  }

  lemma PollTold(l: Limits, idle: Timeval, session: Timeval, atIdle: Timeval, atSession: Timeval, ms: int)
    requires Left(ms) == Nearer(l, Remaining(idle, atIdle), Remaining(session, atSession))
    requires l.session <= 0 ==> atSession == atIdle
    ensures HeadTold(l, if l.session > 0 then [atIdle, atSession] else [atIdle], idle, session,
                     Poll(atIdle, atSession, ms), Some(ms))
  {
    hide Remaining;
  }

  predicate NoExit(log: seq<Entry>) { forall i :: 0 <= i < |log| ==> !IsExit(log[i]) }

  /** How a loop comes to an end here: its turns are over, a timer ran out, or the clock has no more readings. */
  datatype Ending = Over | TimedOut | Spent

  /** log is plan up to where it stops, and stops short of it only at an exit or at the end of the clock. */
  predicate Along(l: Limits, clock: seq<Timeval>, log: seq<Entry>, read: nat, plan: seq<Kind>, end: Ending) {
    && Kinds(log) <= plan
    && match end
       case Over => NoExit(log) && |log| == |plan|
       case TimedOut => log != [] && IsExit(log[|log| - 1]) && NoExit(log[..|log| - 1])
       case Spent => NoExit(log) && |log| < |plan| && read + Width(l, plan[|log|]) > |clock|
  }

  lemma OneMoreEntry(l: Limits, log: seq<Entry>, e: Entry)
    ensures Readings(l, log + [e]) == Readings(l, log) + ReadingsOf(l, e)
    ensures Kinds(log + [e]) == Kinds(log) + [KindOf(e)]
    ensures NoExit(log) && !IsExit(e) ==> NoExit(log + [e])
  {
    assert (log + [e])[..|log|] == log;
  }

  /** The timer fields of tSshContext and a record of how the loops used them. */
  class LoopTimers {
    const limits: Limits
    const clock: seq<Timeval>
    var cursor: nat
    var idleTimer: Timeval
    var sessionTimer: Timeval
    var log: seq<Entry>
    const start: Timeval

    ghost predicate Valid()
      reads this
    {
      && Sane(limits) && Monotone(clock) && |clock| >= 2 && First(limits) <= cursor <= |clock|
      && start == StartOf(limits, clock) && log != [] && log[0] == Reset(clock[0])
      && Honest(limits, start, log)
      && LastReset(log).Some? && Normal(LastReset(log).value)
      && idleTimer == Started(LastReset(log).value, limits.idle)
      && NoLaterThan(log, LastReset(log).value)
      && Micros(LastReset(log).value) <= Micros(clock[cursor - 1])
      && Normal(start) && Micros(start) <= Micros(clock[cursor - 1])
      && (limits.session > 0 ==> sessionTimer == Started(start, limits.session))
    }

    /** The log accounts for every reading made so far but the one that started the session timer. */
    ghost predicate Accounted()
      reads this
    {
      First(limits) <= cursor <= |clock| && Readings(limits, log) == [clock[0]] + clock[First(limits)..cursor]
    }

    lemma ValidClock()
      requires Valid()
      ensures First(limits) <= cursor <= |clock| && |clock| >= 2
    {
    }

    /** The first IdleTimerReset, and the start of the session timer if there is to be one. */
    constructor (limits: Limits, clock: seq<Timeval>)
      requires Sane(limits) && Monotone(clock) && |clock| >= 2
      ensures Valid() && Accounted() && this.limits == limits && this.clock == clock
      ensures log == [Reset(clock[0])] && start == StartOf(limits, clock)
    {
      this.limits, this.clock, cursor := limits, clock, First(limits);
      idleTimer := Started(clock[0], limits.idle);
      sessionTimer := if limits.session > 0 then Started(clock[1], limits.session) else Timeval(0, 0);
      start, log := StartOf(limits, clock), [Reset(clock[0])];
      new;
      assert this.log[..0] == [];
    }

    /** IdleTimerReset, as every resetting callback calls it. */
    method IdleTimerReset()
      requires Valid() && Accounted() && cursor < |clock|
      modifies this`cursor, this`idleTimer, this`log
      ensures Valid() && Accounted() && cursor == old(cursor) + 1
      ensures log == old(log) + [Reset(clock[old(cursor)])]
    {
      hide Readings, EntryHolds, Honest;
      var now := clock[cursor];
      ResetHolds(limits, start, log, now);
      ReadOn(clock, First(limits), cursor, cursor + 1);
      HonestExtends(limits, start, log, Reset(now));
      OneMoreEntry(limits, log, Reset(now));
      assert (log + [Reset(now)])[..|log|] == log;
      idleTimer, log, cursor := Started(now, limits.idle), log + [Reset(now)], cursor + 1;
    }

    method Record(e: Entry)
      requires Valid() && !e.Reset? && EntryHolds(limits, start, log, e)
      modifies this`log
      ensures Valid() && log == old(log) + [e]
    {
      HonestExtends(limits, start, log, e);
      assert (log + [e])[..|log|] == log;
      log := log + [e];
    }

    /**
     The head of one turn of either loop: the poll timeout, or None on a timeout exit.  The entry holds
     the readings of the clock it was decided by.
     */
    method NextTimeout() returns (time: Option<int>)
      requires Valid() && cursor + Width(limits, AHead) <= |clock|
      modifies this`cursor, this`log
      ensures Valid() && old(cursor) < cursor <= old(cursor) + 2
      ensures |log| == |old(log)| + 1 && old(log) == log[..|old(log)|]
      ensures HeadTold(limits, clock[old(cursor)..cursor], idleTimer, sessionTimer, log[|old(log)|], time)
    {
      hide Honest, Readings, Remaining, EntryHolds, NoLaterThan, InTime, LastReset, HeadTold;
      ghost var since := LastReset(log).value;
      var atIdle := clock[cursor];
      OneReading(clock, cursor);
      cursor := cursor + 1;
      var left, steps := TimerGet(idleTimer, atIdle);
      ReadingBounds(since, limits.idle, atIdle);
      if left.ms == 0 {
        IdleExitHolds(limits, start, log, atIdle);
        IdleExitTold(limits, idleTimer, sessionTimer, atIdle);
        Record(IdleExit(atIdle));
        time := None;
      } else if limits.session > 0 {
        time := LimitBySession(atIdle, left.ms);
      } else {
        PollHolds(limits, start, log, atIdle, atIdle, left.ms);
        PollTold(limits, idleTimer, sessionTimer, atIdle, atIdle, left.ms);
        Record(Poll(atIdle, atIdle, left.ms));
        time := Some(left.ms);
      }
    }

    /** The second half of a head with a session timeout: the session timer is read, and the shorter time taken. */
    method LimitBySession(atIdle: Timeval, idleLeft: int) returns (time: Option<int>)
      requires Valid() && limits.session > 0 && 1 < cursor < |clock| && atIdle == clock[cursor - 1] && idleLeft > 0
      requires Remaining(idleTimer, atIdle) == Left(idleLeft)
      requires InTime(LastReset(log).value, limits.idle, atIdle, idleLeft)
      modifies this`cursor, this`log
      ensures Valid() && cursor == old(cursor) + 1
      ensures |log| == |old(log)| + 1 && old(log) == log[..|old(log)|]
      ensures HeadTold(limits, clock[old(cursor) - 1..cursor], idleTimer, sessionTimer, log[|old(log)|], time)
    {
      hide Honest, Readings, Remaining, EntryHolds, NoLaterThan, InTime, LastReset, HeadTold;
      var atSession := clock[cursor];
      TwoReadings(clock, cursor - 1);
      cursor := cursor + 1;
      var left, steps := TimerGet(sessionTimer, atSession);
      ReadingBounds(start, limits.session, atSession);
      if left.ms == 0 {
        SessionExitHolds(limits, start, log, atIdle, atSession);
        SessionExitTold(limits, idleTimer, sessionTimer, atIdle, atSession);
        Record(SessionExit(atIdle, atSession));
        return None;
      }
      var ms := if left.ms < idleLeft then left.ms else idleLeft;
      PollHolds(limits, start, log, atIdle, atSession, ms);
      PollTold(limits, idleTimer, sessionTimer, atIdle, atSession, ms);
      Record(Poll(atIdle, atSession, ms));
      time := Some(ms);
    }

    /** So many resets, as far as the clock goes. */
    method ResetTimes(n: nat, ghost plan: seq<Kind>) returns (end: Ending)
      requires Valid() && Accounted() && NoExit(log) && Kinds(log) + Resets(n) <= plan
      modifies this`cursor, this`idleTimer, this`log
      ensures Valid() && Accounted() && old(log) <= log && !end.TimedOut?
      ensures end.Over? ==> NoExit(log) && Kinds(log) == Kinds(old(log)) + Resets(n)
      ensures end.Spent? ==> Along(limits, clock, log, cursor, plan, end)
    {
      hide Valid, Honest, Readings, Accounted;
      for k := 0 to n
        invariant Valid() && Accounted() && NoExit(log) && old(log) <= log
        invariant Kinds(log) == Kinds(old(log)) + Resets(k)
      {
        if cursor >= |clock| {
          return Spent;
        }
        OneMoreEntry(limits, log, Reset(clock[cursor]));
        IdleTimerReset();
      }
      end := Over;
    }

    method Head(ghost plan: seq<Kind>) returns (end: Ending)
      requires Valid() && Accounted() && NoExit(log) && Kinds(log) + [AHead] <= plan
      modifies this`cursor, this`log
      ensures Valid() && Accounted() && old(log) <= log
      ensures end.Over? ==> NoExit(log) && Kinds(log) == Kinds(old(log)) + [AHead]
      ensures !end.Over? ==> Along(limits, clock, log, cursor, plan, end)
    {
      hide Honest, Readings, Remaining, Valid, Nearer;
      if cursor + Width(limits, AHead) > |clock| {
        ValidClock();
        return Spent;
      }
      var time := NextTimeout();
      ValidClock();
      ghost var e := log[|old(log)|];
      assert log == old(log) + [e];
      OneMoreEntry(limits, old(log), e);
      ReadOn(clock, First(limits), old(cursor), cursor);
      end := if time.None? then TimedOut else Over;
    }

    method OneTurn(t: Turn, ghost plan: seq<Kind>) returns (end: Ending)
      requires Valid() && Accounted() && NoExit(log) && Kinds(log) + TurnPlan(t) <= plan
      modifies this`cursor, this`idleTimer, this`log
      ensures Valid() && Accounted() && old(log) <= log
      ensures end.Over? ==> NoExit(log) && Kinds(log) == Kinds(old(log)) + TurnPlan(t)
      ensures !end.Over? ==> Along(limits, clock, log, cursor, plan, end)
    {
      hide Valid, Accounted, NoExit, Along, Kinds, Resets;
      ghost var was := Kinds(log);
      assert was + TurnPlan(t) == was + Resets(t.before) + [AHead] + Resets(t.during);
      end := ResetTimes(t.before, plan);
      if end.Over? {
        end := Head(plan);
        if end.Over? {
          end := ResetTimes(t.during, plan);
        }
      }
    }

    /** One event loop of ProxyProcess, turn by turn. */
    method Loop(turns: seq<Turn>, ghost plan: seq<Kind>) returns (end: Ending)
      requires Valid() && Accounted() && NoExit(log) && Kinds(log) + LoopPlan(turns) <= plan
      modifies this`cursor, this`idleTimer, this`log
      ensures Valid() && Accounted() && old(log) <= log
      ensures end.Over? ==> NoExit(log) && Kinds(log) == Kinds(old(log)) + LoopPlan(turns)
      ensures !end.Over? ==> Along(limits, clock, log, cursor, plan, end)
    {
      hide Valid, Accounted, NoExit, Along, Kinds, Resets, TurnPlan;
      ghost var was := Kinds(log);
      for i := 0 to |turns|
        invariant Valid() && Accounted() && NoExit(log) && old(log) <= log
        invariant Kinds(log) == was + LoopPlan(turns[..i])
      {
        PlanGoesOn(turns, i, was);
        end := OneTurn(turns[i], plan);
        if !end.Over? {
          return;
        }
      }
      assert turns[..|turns|] == turns;
      end := Over;
    }
  }

  lemma OneReading(clock: seq<Timeval>, i: nat)
    requires i < |clock|
    ensures clock[i..i + 1] == [clock[i]]
  {
  }

  lemma TwoReadings(clock: seq<Timeval>, i: nat)
    requires i + 1 < |clock|
    ensures clock[i..i + 2] == [clock[i], clock[i + 1]]
  {
  }

  lemma ReadOn(clock: seq<Timeval>, first: nat, from: nat, to: nat)
    requires first <= from <= to <= |clock| && clock != []
    ensures [clock[0]] + clock[first..from] + clock[from..to] == [clock[0]] + clock[first..to]
  {
  }

  /** The plan of a loop goes on from that of its first turns. */
  lemma {:induction false} PlanGoesOn(turns: seq<Turn>, i: nat, was: seq<Kind>)
    requires i < |turns|
    ensures LoopPlan(turns[..i + 1]) == LoopPlan(turns[..i]) + TurnPlan(turns[i])
    ensures was + LoopPlan(turns[..i]) + TurnPlan(turns[i]) <= was + LoopPlan(turns)
    ensures was + LoopPlan(turns[..i + 1]) == was + LoopPlan(turns[..i]) + TurnPlan(turns[i])
  {
    hide TurnPlan;
    assert turns[..i + 1][..i] == turns[..i];
    if i + 1 < |turns| {
      var fewer := turns[..|turns| - 1];
      PlanGoesOn(fewer, i, was);
      assert fewer[..i] == turns[..i] && fewer[..i + 1] == turns[..i + 1];
      assert was + LoopPlan(turns) == was + LoopPlan(fewer) + TurnPlan(turns[|turns| - 1]);
    } else {
      assert turns[..i + 1] == turns;
    }
  }

  /**
   The wait loop and then the relay loop, over any monotone clock and any pattern of callbacks.  The
   record accounts for the run: its readings are those of the clock, each once and in order; its entries
   are the resets and the heads of the two loops in their order, and it stops short only at the first
   timeout or where the clock does.  Honest holds of the whole record: every poll lasts at least 1 ms,
   passes neither deadline by 1 ms and ends within 1 ms of the nearer one; an idle exit means nobody
   reset the timer for the idle timeout less under 1 ms; and the session deadline stays where the start
   put it.
   */
  method EventLoops(limits: Limits, clock: seq<Timeval>, wait: seq<Turn>,
                    relay: seq<Turn>) returns (log: seq<Entry>, used: nat, end: Ending)
    requires Sane(limits) && Monotone(clock) && |clock| >= 2
    ensures [Reset(clock[0])] <= log && Honest(limits, StartOf(limits, clock), log)
    ensures First(limits) <= used <= |clock|
    ensures Readings(limits, log) == [clock[0]] + clock[First(limits)..used]
    ensures Along(limits, clock, log, used, Plan(wait, relay), end)
  {
    hide Honest, Readings;
    ghost var plan := Plan(wait, relay);
    var timers := new LoopTimers(limits, clock);
    PlanParts(wait, relay);
    end := timers.Loop(wait, plan);
    if end.Over? {
      end := timers.ResetTimes(1, plan);
      if end.Over? {
        end := timers.Loop(relay, plan);
      }
    }
    log, used := timers.log, timers.cursor;
  }

  lemma PlanParts(wait: seq<Turn>, relay: seq<Turn>)
    ensures Kinds([Reset(Timeval(0, 0))]) == [AReset] && Resets(1) == [AReset]
    ensures [AReset] + LoopPlan(wait) <= Plan(wait, relay)
    ensures [AReset] + LoopPlan(wait) + [AReset] <= Plan(wait, relay)
    ensures [AReset] + LoopPlan(wait) + [AReset] + LoopPlan(relay) == Plan(wait, relay)
  {
  }
}
