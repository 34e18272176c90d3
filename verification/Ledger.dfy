/**
 The calls the proxy makes on libssh and malloc, as a log, and the rules every log must keep:
 only live handles are used, nothing is freed twice, a session outlives its channels and leaves
 the event loop before it is freed, and a write selects the session its channel belongs to.
 */
module Ledger {
  import opened Common

  datatype Op =
    | SessionNew(s: Handle)
    | SessionFree(s: Handle)                      // ssh_disconnect and ssh_free
    | ChannelNew(c: Handle, s: Handle)
    | ChannelUse(c: Handle)                       // is_open, send_eof, close, poll, exit status ...
    | ChannelFree(c: Handle)
    | PairNew(p: Handle)
    | PairFree(p: Handle)
    | EventAdd(s: Handle)
    | EventRemove(s: Handle)
    | PtyRequest(c: Handle, ok: bool)
    | ShellRequest(c: Handle, ok: bool)
    | WindowChange(c: Handle)
    | Write(s: Handle, c: Handle, stderr: bool, accepted: seq<Byte>)
    | Undefined                                   // behaviour C leaves undefined

  datatype Books = Books(
    ok: bool, issued: nat,
    sessions: set<Handle>, channels: map<Handle, Handle>, pairs: set<Handle>, watched: set<Handle>)

  const EMPTY_BOOKS := Books(true, 0, {}, map[], {}, {})

  /** Whether an operation is allowed when the books stand like this. */
  predicate Allowed(b: Books, op: Op) {
    match op
    case SessionNew(s) => s >= b.issued
    case SessionFree(s) => s in b.sessions && s !in b.watched && (forall c :: c in b.channels ==> b.channels[c] != s)
    case ChannelNew(c, s) => c >= b.issued && s in b.sessions
    case ChannelUse(c) => c in b.channels
    case ChannelFree(c) => c in b.channels
    case PairNew(p) => p >= b.issued
    case PairFree(p) => p in b.pairs
    case EventAdd(s) => s in b.sessions && s !in b.watched
    case EventRemove(s) => s in b.watched
    case PtyRequest(c, _) => c in b.channels
    case ShellRequest(c, _) => c in b.channels
    case WindowChange(c) => c in b.channels
    case Write(s, c, _, _) => c in b.channels && b.channels[c] == s
    case Undefined => false
  }

  function Post(b: Books, op: Op): Books {
    if !b.ok || !Allowed(b, op) then b.(ok := false)
    else match op
      case SessionNew(s) => b.(sessions := b.sessions + {s}, issued := s + 1)
      case SessionFree(s) => b.(sessions := b.sessions - {s})
      case ChannelNew(c, s) => b.(channels := b.channels[c := s], issued := c + 1)
      case ChannelFree(c) => b.(channels := b.channels - {c})
      case PairNew(p) => b.(pairs := b.pairs + {p}, issued := p + 1)
      case PairFree(p) => b.(pairs := b.pairs - {p})
      case EventAdd(s) => b.(watched := b.watched + {s})
      case EventRemove(s) => b.(watched := b.watched - {s})
      case _ => b
  }

  function PostAll(b: Books, ops: seq<Op>): Books {
    if ops == [] then b else Post(PostAll(b, ops[..|ops| - 1]), ops[|ops| - 1])
  }

  function Replay(log: seq<Op>): Books { PostAll(EMPTY_BOOKS, log) }

  /** Everything has been given back, and no rule was broken on the way. */
  predicate Balanced(log: seq<Op>) {
    var b := Replay(log);
    b.ok && b.sessions == {} && b.channels == map[] && b.pairs == {} && b.watched == {}
  }

  // ---------------------------------------------------------------- what balanced books mean

  /** The handle an operation brings to life, or ends. */
  function Born(op: Op): Option<Handle> {
    match op
    case SessionNew(s) => Some(s)
    case ChannelNew(c, _) => Some(c)
    case PairNew(p) => Some(p)
    case _ => None
  }

  function Ended(op: Op): Option<Handle> {
    match op
    case SessionFree(s) => Some(s)
    case ChannelFree(c) => Some(c)
    case PairFree(p) => Some(p)
    case _ => None
  }

  predicate Live(b: Books, h: Handle) { h in b.sessions || h in b.channels || h in b.pairs }

  /** The handle born at i is ended at exactly one place, later. */
  predicate EndedOnce(log: seq<Op>, i: nat)
    requires i < |log| && Born(log[i]).Some?
  {
    exists j :: i < j < |log| && Ended(log[j]) == Born(log[i])
             && forall k :: 0 <= k < |log| && Ended(log[k]) == Born(log[i]) ==> k == j
  }

  lemma {:induction false} OkPrefix(log: seq<Op>, n: nat)
    requires Replay(log).ok && n <= |log|
    ensures Replay(log[..n]).ok
  {
    if n < |log| {
      OkPrefix(log[..|log| - 1], n);
      assert log[..|log| - 1][..n] == log[..n];
    } else {
      assert log[..n] == log;
    }
  }

  /** Live handles were issued, kinds never share one, and channels and the event loop refer to live sessions. */
  predicate WellKept(b: Books) {
    && (forall h :: h in b.sessions ==> h < b.issued)
    && (forall h :: h in b.channels ==> h < b.issued)
    && (forall h :: h in b.pairs ==> h < b.issued)
    && b.sessions !! b.channels.Keys && b.sessions !! b.pairs && b.channels.Keys !! b.pairs
    && (forall h :: h in b.channels ==> b.channels[h] in b.sessions)
    && b.watched <= b.sessions
  }

  lemma WellKeptStep(b: Books, op: Op)
    requires WellKept(b) && Post(b, op).ok
    ensures WellKept(Post(b, op))
  {
  }

  lemma {:induction false} WellKeptAlways(log: seq<Op>)
    requires Replay(log).ok
    ensures WellKept(Replay(log))
  {
    if log != [] {
      WellKeptAlways(log[..|log| - 1]);
      WellKeptStep(Replay(log[..|log| - 1]), log[|log| - 1]);
    }
  }

  /** A handle once ended is dead for good: it was issued, is not live, and no later operation ends it. */
  lemma {:induction false} DeadForGood(log: seq<Op>, j: nat)
    requires Replay(log).ok && j < |log| && Ended(log[j]).Some?
    ensures var h := Ended(log[j]).value;
            && h < Replay(log).issued && !Live(Replay(log), h)
            && forall k :: j < k < |log| ==> Ended(log[k]) != Some(h) && Born(log[k]) != Some(h)
  {
    var before := log[..|log| - 1];
    WellKeptAlways(before);
    if j < |log| - 1 {
      DeadForGood(before, j);
    }
  }

  /** What was born is live still or was ended after its birth. */
  lemma {:induction false} LiveOrEnded(log: seq<Op>, i: nat)
    requires Replay(log).ok && i < |log| && Born(log[i]).Some?
    ensures Live(Replay(log), Born(log[i]).value)
         || exists j :: i < j < |log| && Ended(log[j]) == Born(log[i])
  {
    var before := log[..|log| - 1];
    if i < |log| - 1 {
      LiveOrEnded(before, i);
      if !Live(Replay(before), Born(log[i]).value) {
        var j :| i < j < |before| && Ended(before[j]) == Born(before[i]);
        assert Ended(log[j]) == Born(log[i]);
      } else if !Live(Replay(log), Born(log[i]).value) {
        assert Ended(log[|log| - 1]) == Born(log[i]);
      }
    }
  }

  /**
   Balanced books mean exactly-once release: whatever a log brings to life - session, channel or
   pair - it ends once, afterwards, and never again.
   */
  lemma BalancedMeansExactlyOnce(log: seq<Op>)
    requires Balanced(log)
    ensures forall i :: 0 <= i < |log| && Born(log[i]).Some? ==> EndedOnce(log, i)
  {
    forall i | 0 <= i < |log| && Born(log[i]).Some?
      ensures EndedOnce(log, i)
    {
      LiveOrEnded(log, i);
      var j :| i < j < |log| && Ended(log[j]) == Born(log[i]);
      DeadForGood(log, j);
      forall k | 0 <= k < |log| && Ended(log[k]) == Born(log[i])
        ensures k == j
      {
        DeadForGood(log, k);
      }
    }
  }

  /** A session is freed only after each of its channels. */
  lemma ChannelsBeforeSession(log: seq<Op>, i: nat, k: nat)
    requires Replay(log).ok && i < |log| && k < |log|
    requires log[i].ChannelNew? && log[k] == SessionFree(log[i].s)
    ensures exists j :: i < j < k && log[j] == ChannelFree(log[i].c)
  {
    var c, s := log[i].c, log[i].s;
    OkPrefix(log, k + 1);
    OkPrefix(log, i + 1);
    assert log[..k + 1][..k] == log[..k];
    assert log[..i + 1][..i] == log[..i];
    if k < i {
      DeadForGood(log[..i], k);
    }
    OkPrefix(log, k);
    SessionOfLive(log[..k], i);
    StaysAChannel(log[..k], i);
    assert Allowed(Replay(log[..k]), log[k]);
    LiveOrEnded(log[..k], i);
    var j :| i < j < k && Ended(log[j]) == Some(c);
    OkPrefix(log, j + 1);
    OkPrefix(log, j);
    assert log[..j + 1][..j] == log[..j];
    StaysAChannel(log[..j], i);
  }

  /** A live channel still belongs to the session it was opened on. */
  lemma {:induction false} SessionOfLive(log: seq<Op>, i: nat)
    requires Replay(log).ok && i < |log| && log[i].ChannelNew?
    ensures log[i].c in Replay(log).channels ==> Replay(log).channels[log[i].c] == log[i].s
    ensures log[i].c < Replay(log).issued
  {
    if i < |log| - 1 {
      SessionOfLive(log[..|log| - 1], i);
    }
  }

  /** A channel's handle never names a session or a pair. */
  lemma {:induction false} StaysAChannel(log: seq<Op>, i: nat)
    requires Replay(log).ok && i < |log| && log[i].ChannelNew?
    ensures log[i].c !in Replay(log).sessions && log[i].c !in Replay(log).pairs
  {
    var before := log[..|log| - 1];
    WellKeptAlways(before);
    if i < |log| - 1 {
      StaysAChannel(before, i);
      SessionOfLive(before, i);
    }
  }
}
