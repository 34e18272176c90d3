/**
 Option folding (src/config.c).  getopt's output is a list of events; ConfigParse folds them into
 fields whose sentinel values stand for "not yet seen".  The fold equals a specification that only
 looks at the multiset of events, so order never matters.
 */
module Options {
  import opened Common

  // The options that take an argument.
  datatype Key = TrapPort | HaasPort | IdleTimeout | SessionTimeout | CpuUsage | ProcessNice | ConnLimit | ForwardMode
               | HaasAddr | Banner | HaasToken | KeysDir

  /** An option argument: its text, and what strtol(...,0) makes of it. */
  datatype Arg = Arg(text: string, number: int, clean: bool)

  datatype Event =
    | Foreground
    | Debug
    | Help                    // -h, or -?
    | Valued(key: Key, arg: Arg)
    | MissingArgument
    | UnknownOption
    | Unexpected              // any other return of getopt: reported and ignored

  const UNSEEN := -1
  const FORWARD_MODE_MAX := 5
  const DEFAULT_TRAP_PORT := 2222
  const DEFAULT_HAAS_PORT := 10000
  const DEFAULT_HAAS_HOST := "haas-app.nic.cz"
  const DEFAULT_KEYS_FOLDER := "/etc/HaaS/keys/"
  const DEFAULT_IDLE_TIMEOUT := 30
  const DEFAULT_CONN_LIMIT := 30
  const DEFAULT_BANNER_STR := "OpenSSH_7.2p2 Ubuntu-4ubuntu2.2"
  const DEFAULT_FORWARD_MODE := 2

  predicate IsText(key: Key) { key.HaasAddr? || key.Banner? || key.HaasToken? || key.KeysDir? }

  // ---------------------------------------------------------------- the specification

  /** Whether a key accepts an argument; strtol's long is narrowed to int first. */
  predicate Accepts(key: Key, arg: Arg) {
    var i := Wrap32(arg.number);
    if IsText(key) then true
    else if key.ForwardMode? then arg.clean && 0 <= i < FORWARD_MODE_MAX
    else if key.TrapPort? || key.HaasPort? then arg.clean && 0 < i < 65535
    else arg.clean && i > 0
  }

  predicate Harmless(e: Event) {
    !e.MissingArgument? && !e.UnknownOption? && (e.Valued? ==> Accepts(e.key, e.arg))
  }

  ghost predicate Given(m: multiset<Event>, key: Key) {
    exists arg :: Valued(key, arg) in m
  }

  ghost predicate AtMostOnce(m: multiset<Event>) {
    forall e, f :: e in m && f in m && e.Valued? && f.Valued? && e.key == f.key ==> e == f && m[e] == 1
  }

  ghost predicate AllHarmless(m: multiset<Event>) {
    forall e :: e in m ==> Harmless(e)
  }

  /** When ConfigParse succeeds; `extra` is whether arguments are left over. */
  ghost predicate Acceptable(m: multiset<Event>, extra: bool) {
    && AllHarmless(m)
    && AtMostOnce(m)
    && (Help in m || (!extra && Given(m, HaasToken)))
  }

  ghost function ArgOf(m: multiset<Event>, key: Key): Arg
    requires Given(m, key)
  {
    var arg :| Valued(key, arg) in m; arg
  }

  ghost function NumberOf(m: multiset<Event>, key: Key): int {
    if Given(m, key) then Wrap32(ArgOf(m, key).number) else UNSEEN
  }

  ghost function TextOf(m: multiset<Event>, key: Key): Option<string> {
    if Given(m, key) then Some(ArgOf(m, key).text) else None
  }

  function IntDefault(key: Key): int {
    match key
    case TrapPort => DEFAULT_TRAP_PORT
    case HaasPort => DEFAULT_HAAS_PORT
    case IdleTimeout => DEFAULT_IDLE_TIMEOUT
    case ConnLimit => DEFAULT_CONN_LIMIT
    case ForwardMode => DEFAULT_FORWARD_MODE
    case _ => UNSEEN
  }

  function TextDefault(key: Key): Option<string> {
    match key
    case HaasAddr => Some(DEFAULT_HAAS_HOST)
    case KeysDir => Some(DEFAULT_KEYS_FOLDER)
    case Banner => Some(DEFAULT_BANNER_STR)
    case _ => None
  }

  /** The value of an integer setting after parsing; defaults fill in unless help was asked for. */
  ghost function FinalInt(m: multiset<Event>, key: Key): int {
    if Given(m, key) || Help in m then NumberOf(m, key) else IntDefault(key)
  }

  ghost function FinalText(m: multiset<Event>, key: Key): Option<string> {
    if Given(m, key) || Help in m then TextOf(m, key) else TextDefault(key)
  }

  // ---------------------------------------------------------------- facts about the specification

  /** The sentinel is exact: -1 means "not yet seen", because no accepted argument is -1. */
  lemma SentinelIsExact(m: multiset<Event>, key: Key)
    requires AllHarmless(m)
    ensures !IsText(key) ==> (NumberOf(m, key) == UNSEEN <==> !Given(m, key))
    ensures TextOf(m, key).None? <==> !Given(m, key)
  {
    if Given(m, key) {
      assert Harmless(Valued(key, ArgOf(m, key)));
    }
  }

  /** The values an integer setting can have in the end. */
  predicate InRange(key: Key, i: int) {
    match key
    case TrapPort | HaasPort => 0 < i < 65535
    case IdleTimeout | ConnLimit => i > 0
    case ForwardMode => 0 <= i < FORWARD_MODE_MAX
    case _ => i == UNSEEN || i > 0
  }

  /** Every setting of an accepted command line is in range, defaults included. */
  lemma SettingsInRange(m: multiset<Event>, extra: bool, key: Key)
    requires Acceptable(m, extra) && Help !in m
    ensures !IsText(key) ==> InRange(key, FinalInt(m, key))
    ensures IsText(key) ==> FinalText(m, key).Some?
  {
    if Given(m, key) {
      assert Harmless(Valued(key, ArgOf(m, key)));
    }
  }

  /** What a setting is when it is not given: its default, or the sentinel where it has none. */
  lemma DefaultsSpelled(m: multiset<Event>, key: Key)
    requires !Given(m, key) && Help !in m
    ensures FinalInt(m, key) == match key
                                case TrapPort => 2222
                                case HaasPort => 10000
                                case IdleTimeout => 30
                                case ConnLimit => 30
                                case ForwardMode => 2        // fake
                                case _ => -1
    ensures FinalText(m, key) == match key
                                 case HaasAddr => Some("haas-app.nic.cz")
                                 case KeysDir => Some("/etc/HaaS/keys/")
                                 case Banner => Some("OpenSSH_7.2p2 Ubuntu-4ubuntu2.2")
                                 case _ => None
  {
  }

  /** What it is when it is given: the text, or the number narrowed to int. */
  lemma {:induction false} GivenIsStored(m: multiset<Event>, key: Key, arg: Arg)
    requires AtMostOnce(m) && Valued(key, arg) in m
    ensures FinalInt(m, key) == Wrap32(arg.number) && FinalText(m, key) == Some(arg.text)
  {
    assert Given(m, key);
    assert Valued(key, ArgOf(m, key)) == Valued(key, arg);
  }

  /** When help was asked for nothing is filled in. */
  lemma HelpFillsNothingIn(m: multiset<Event>, key: Key)
    requires !Given(m, key) && Help in m
    ensures FinalInt(m, key) == -1 && FinalText(m, key) == None
  {
  }

  // ---------------------------------------------------------------- what was typed, and what is understood

  /** The numbers a key is meant to take, as typed: ports up to 65535, and nothing that int cannot hold. */
  predicate MeantFor(key: Key, number: int) {
    match key
    case TrapPort | HaasPort => 0 < number <= 65535
    case ForwardMode => 0 <= number <= 4         // deny, allow, fake, null, echo
    case _ => 0 < number <= INT_MAX
  }

  predicate Meant(key: Key, arg: Arg) { IsText(key) || (arg.clean && MeantFor(key, arg.number)) }

  /**
   The typed numbers on which code and intent part: port 65535, and a number outside int whose low 32
   bits happen to be a value of the key.
   */
  predicate Misread(key: Key, number: int) {
    var low := number % 0x1_0000_0000;
    match key
    case TrapPort | HaasPort => number == 65535 || (!IsInt(number) && 0 < low < 65535)
    case ForwardMode => !IsInt(number) && 0 <= low < FORWARD_MODE_MAX
    case _ => !IsInt(number) && 0 < low <= INT_MAX
  }

  /** An argument is accepted exactly when it is meant to be, if and only if its number is not misread. */
  lemma AcceptsAsMeant(key: Key, arg: Arg)
    ensures (Accepts(key, arg) <==> Meant(key, arg)) <==> IsText(key) || !arg.clean || !Misread(key, arg.number)
  {
    var low := arg.number % 0x1_0000_0000;
    assert Wrap32(arg.number) == if low <= INT_MAX then low else low - 0x1_0000_0000 by {
      LowBits(arg.number);
    }
  }

  lemma LowBits(x: int)
    ensures var low := x % 0x1_0000_0000; Wrap32(x) == if low <= INT_MAX then low else low - 0x1_0000_0000
  {
    ModShift(x % 0x1_0000_0000 + 0x8000_0000, x / 0x1_0000_0000);
  }

  /** A narrowed number is the typed one exactly when int can hold it. */
  lemma StoredAsTyped(number: int)
    ensures Wrap32(number) == number <==> IsInt(number)
  {
  }

  /** The command line -t text -X arg, which is meant to be accepted exactly when arg is meant for X. */
  ghost function Alone(key: Key, arg: Arg, token: Arg): multiset<Event> {
    multiset{Valued(HaasToken, token), Valued(key, arg)}
  }

  lemma AloneIsItsArgument(key: Key, arg: Arg, token: Arg)
    requires !IsText(key)
    ensures Acceptable(Alone(key, arg, token), false) <==> Accepts(key, arg)
    ensures FinalInt(Alone(key, arg, token), key) == Wrap32(arg.number)
  {
    var m := Alone(key, arg, token);
    assert Valued(HaasToken, token) in m && Valued(key, arg) in m;
    assert Harmless(Valued(HaasToken, token)) && (Accepts(key, arg) <==> Harmless(Valued(key, arg)));
    assert forall e :: e in m <==> e == Valued(HaasToken, token) || e == Valued(key, arg);
  }

  /**
   A whole command line: one numeric option is understood as typed - accepted exactly if it is meant to
   be, and then stored unchanged - if and only if its number is not misread.
   */
  lemma UnderstoodAsTyped(key: Key, arg: Arg, token: Arg)
    requires !IsText(key) && arg.clean
    ensures var m := Alone(key, arg, token);
            (&& (Acceptable(m, false) <==> Meant(key, arg))
             && (Acceptable(m, false) ==> FinalInt(m, key) == arg.number))
            <==> !Misread(key, arg.number)
  {
    AloneIsItsArgument(key, arg, token);
    AcceptsAsMeant(key, arg);
    StoredAsTyped(arg.number);
  }

  /** The same specification with the intended range test. */
  ghost predicate AcceptableAsMeant(m: multiset<Event>, extra: bool) {
    && (forall e :: e in m ==> !e.MissingArgument? && !e.UnknownOption? && (e.Valued? ==> Meant(e.key, e.arg)))
    && AtMostOnce(m)
    && (Help in m || (!extra && Given(m, HaasToken)))
  }

  ghost predicate NothingMisread(m: multiset<Event>) {
    forall e :: e in m && e.Valued? ==> IsText(e.key) || !e.arg.clean || !Misread(e.key, e.arg.number)
  }

  /**
   Any command line without a misread number is parsed as meant, and every number given is the one typed.
   This goes one way, since a misread number may be on a line that is refused anyhow: the exact forms
   are AcceptsAsMeant for an argument and UnderstoodAsTyped for a line with one numeric option.
   */
  lemma ParsedAsMeant(m: multiset<Event>, extra: bool)
    requires NothingMisread(m)
    ensures Acceptable(m, extra) <==> AcceptableAsMeant(m, extra)
    ensures Acceptable(m, extra) ==>
              forall key :: !IsText(key) && Given(m, key) ==> FinalInt(m, key) == ArgOf(m, key).number
  {
    forall e | e in m && e.Valued?
      ensures Accepts(e.key, e.arg) <==> Meant(e.key, e.arg)
    {
      AcceptsAsMeant(e.key, e.arg);
    }
    assert forall e :: e in m && e.Valued? ==> (Harmless(e) <==> Meant(e.key, e.arg));
    forall key | Acceptable(m, extra) && !IsText(key) && Given(m, key)
      ensures FinalInt(m, key) == ArgOf(m, key).number
    {
      assert Harmless(Valued(key, ArgOf(m, key)));
      StoredAsTyped(ArgOf(m, key).number);
    }
  }

  /** Port 4294967318 is taken for port 22, -4294967295 seconds for one second, and port 65535 is refused. */
  lemma MisreadExamples(token: Arg)
    ensures var m := Alone(TrapPort, Arg("4294967318", 4294967318, true), token);
            Acceptable(m, false) && FinalInt(m, TrapPort) == 22
    ensures var m := Alone(IdleTimeout, Arg("-4294967295", -4294967295, true), token);
            Acceptable(m, false) && FinalInt(m, IdleTimeout) == 1
    ensures !Acceptable(Alone(TrapPort, Arg("65535", 65535, true), token), false)
  {
    hide Acceptable, FinalInt, Alone;
    AloneIsItsArgument(TrapPort, Arg("4294967318", 4294967318, true), token);
    AloneIsItsArgument(IdleTimeout, Arg("-4294967295", -4294967295, true), token);
    AloneIsItsArgument(TrapPort, Arg("65535", 65535, true), token);
  }

  // ---------------------------------------------------------------- the specification along a fold

  /** A part of an acceptable collection of events has no faults of its own. */
  lemma FaultsStay(part: multiset<Event>, whole: multiset<Event>)
    requires part <= whole && AllHarmless(whole) && AtMostOnce(whole)
    ensures AllHarmless(part) && AtMostOnce(part)
  {
    forall e, f | e in part && f in part && e.Valued? && f.Valued? && e.key == f.key
      ensures e == f && part[e] == 1
    {
      assert e in whole && f in whole;
      assert part[e] <= whole[e];
    }
  }

  /** Seeing a key for the first time. */
  lemma FirstTime(m: multiset<Event>, key: Key, arg: Arg)
    requires AllHarmless(m) && AtMostOnce(m) && !Given(m, key) && Accepts(key, arg)
    ensures var n := m + multiset{Valued(key, arg)};
            && AllHarmless(n) && AtMostOnce(n)
            && NumberOf(n, key) == Wrap32(arg.number) && TextOf(n, key) == Some(arg.text)
            && forall k :: k != key ==> NumberOf(n, k) == NumberOf(m, k) && TextOf(n, k) == TextOf(m, k)
  {
    var e := Valued(key, arg);
    var n := m + multiset{e};
    assert e in n && n[e] == 1;
    assert AtMostOnce(n);
    forall k | k != key
      ensures NumberOf(n, k) == NumberOf(m, k) && TextOf(n, k) == TextOf(m, k)
    {
      SameArg(m, n, k);
    }
  }

  lemma SameArg(m: multiset<Event>, n: multiset<Event>, k: Key)
    requires AtMostOnce(m) && AtMostOnce(n)
    requires forall arg :: Valued(k, arg) in m <==> Valued(k, arg) in n
    ensures Given(m, k) <==> Given(n, k)
    ensures Given(m, k) ==> ArgOf(m, k) == ArgOf(n, k)
  {
    if Given(m, k) {
      assert Valued(k, ArgOf(m, k)) in n;
      assert Valued(k, ArgOf(n, k)) in m;
    }
  }

  /** Seeing an event that sets no valued option. */
  lemma OtherEvent(m: multiset<Event>, e: Event)
    requires AllHarmless(m) && AtMostOnce(m) && Harmless(e) && !e.Valued?
    ensures var n := m + multiset{e};
            && AllHarmless(n) && AtMostOnce(n)
            && forall k :: NumberOf(n, k) == NumberOf(m, k) && TextOf(n, k) == TextOf(m, k)
  {
    var n := m + multiset{e};
    assert AtMostOnce(n);
    forall k
      ensures NumberOf(n, k) == NumberOf(m, k) && TextOf(n, k) == TextOf(m, k)
    {
      SameArg(m, n, k);
    }
  }

  /** Seeing a fault: an unacceptable event, or a key for the second time. */
  lemma FaultSeen(m: multiset<Event>, e: Event)
    requires !Harmless(e) || (e.Valued? && Given(m, e.key))
    ensures var n := m + multiset{e}; !AllHarmless(n) || !AtMostOnce(n)
  {
    var n := m + multiset{e};
    assert e in n;
    if Harmless(e) {
      var f := Valued(e.key, ArgOf(m, e.key));
      assert f in n && n[f] >= 1;
      assert f == e ==> n[e] >= 2;
    }
  }

  // ---------------------------------------------------------------- the parser

  /** ParseInt: at most once, clean, positive. */
  method ParseInt(value: int, arg: Arg) returns (ok: bool, parsed: int)
    ensures ok <==> value == UNSEEN && arg.clean && Wrap32(arg.number) > 0
    ensures parsed == if ok then Wrap32(arg.number) else value
  {
    ok, parsed := false, value;
    if value == UNSEEN && arg.clean {
      var i := Wrap32(arg.number);
      if !(i <= 0) {
        ok, parsed := true, i;
      }
    }
  }

  /** ParsePort: ParseInt into a copy, then the upper end. */
  method ParsePort(value: int, arg: Arg) returns (ok: bool, parsed: int)
    ensures ok <==> value == UNSEEN && arg.clean && 0 < Wrap32(arg.number) < 65535
    ensures parsed == if ok then Wrap32(arg.number) else value
  {
    parsed := value;
    var i;
    ok, i := ParseInt(value, arg);
    if ok {
      if i >= 65535 {
        ok := false;
      } else {
        parsed := i;
      }
    }
  }

  /** tConfig. */
  class Config {
    var wantHelp: bool
    var foreground: bool
    var debugLevel: int
    var idleTimeout: int
    var sessionTimeout: int
    var cpuUsage: int
    var processNice: int
    var connLimit: int
    var trapPort: int
    var haasPort: int
    var forwardMode: int
    var banner: Option<string>
    var keysDir: Option<string>
    var haasAddr: Option<string>
    var haasToken: Option<string>

    function IntField(key: Key): int
      reads this
    {
      match key
      case TrapPort => trapPort
      case HaasPort => haasPort
      case IdleTimeout => idleTimeout
      case SessionTimeout => sessionTimeout
      case CpuUsage => cpuUsage
      case ProcessNice => processNice
      case ConnLimit => connLimit
      case ForwardMode => forwardMode
      case _ => UNSEEN
    }

    function TextField(key: Key): Option<string>
      reads this
    {
      match key
      case HaasAddr => haasAddr
      case Banner => banner
      case HaasToken => haasToken
      case KeysDir => keysDir
      case _ => None
    }

    /** The fields hold what the events seen so far say, sentinels where they say nothing. */
    ghost predicate Reflects(m: multiset<Event>)
      reads this
    {
      && wantHelp == (Help in m) && foreground == (Foreground in m) && debugLevel == m[Debug]
      && forall key :: if IsText(key) then TextField(key) == TextOf(m, key) else IntField(key) == NumberOf(m, key)
    }

    /** ConfigInit. */
    constructor ()
      ensures Reflects(multiset{})
    {
      wantHelp, foreground, debugLevel := false, false, 0;
      idleTimeout, sessionTimeout, cpuUsage, processNice, connLimit := UNSEEN, UNSEEN, UNSEEN, UNSEEN, UNSEEN;
      trapPort, haasPort, forwardMode := UNSEEN, UNSEEN, UNSEEN;
      banner, keysDir, haasAddr, haasToken := None, None, None, None;
    }

    /** The branches of the switch for options with an argument. */
    method SetOption(key: Key, arg: Arg) returns (ok: bool)
      modifies this
      ensures ok <==>
        Accepts(key, arg) && (if IsText(key) then old(TextField(key)).None? else old(IntField(key)) == UNSEEN)
      ensures ok && IsText(key) ==> TextField(key) == Some(arg.text)
      ensures ok && !IsText(key) ==> IntField(key) == Wrap32(arg.number)
      ensures forall k :: k != key ==> IntField(k) == old(IntField(k)) && TextField(k) == old(TextField(k))
      ensures wantHelp == old(wantHelp) && foreground == old(foreground) && debugLevel == old(debugLevel)
    {
      match key {
        case TrapPort => ok, trapPort := ParsePort(trapPort, arg);
        case HaasPort => ok, haasPort := ParsePort(haasPort, arg);
        case IdleTimeout => ok, idleTimeout := ParseInt(idleTimeout, arg);
        case SessionTimeout => ok, sessionTimeout := ParseInt(sessionTimeout, arg);
        case CpuUsage => ok, cpuUsage := ParseInt(cpuUsage, arg);
        case ProcessNice => ok, processNice := ParseInt(processNice, arg);
        case ConnLimit => ok, connLimit := ParseInt(connLimit, arg);
        case ForwardMode =>
          var i := Wrap32(arg.number);
          ok := forwardMode == UNSEEN && arg.clean && !(i < 0 || i >= FORWARD_MODE_MAX);
          if ok {
            forwardMode := i;
          }
        case HaasAddr =>
          ok := haasAddr.None?;
          if ok {
            haasAddr := Some(arg.text);
          }
        case Banner =>
          ok := banner.None?;
          if ok {
            banner := Some(arg.text);
          }
        case HaasToken =>
          ok := haasToken.None?;
          if ok {
            haasToken := Some(arg.text);
          }
        case KeysDir =>
          ok := keysDir.None?;
          if ok {
            keysDir := Some(arg.text);
          }
      }
    }

    /** The branches for options without an argument, and for getopt's complaints. */
    method TakeSwitch(e: Event) returns (back: bool)
      requires !e.Valued?
      modifies `foreground, `debugLevel, `wantHelp
      ensures back == Harmless(e)
      ensures wantHelp == (old(wantHelp) || e.Help?) && foreground == (old(foreground) || e.Foreground?)
      ensures debugLevel == old(debugLevel) + (if e.Debug? then 1 else 0)
    {
      back := true;
      match e {
        case Foreground => foreground := true;
        case Debug => debugLevel := debugLevel + 1;
        case Help => wantHelp := true;
        case MissingArgument => back := false;
        case UnknownOption => back := false;
        case Unexpected =>
      }
    }

    /** One turn of the option loop; false is an error. */
    method TakeEvent(e: Event, ghost m: multiset<Event>) returns (back: bool)
      requires Reflects(m) && AllHarmless(m) && AtMostOnce(m)
      modifies this
      ensures var n := m + multiset{e};
              if back then AllHarmless(n) && AtMostOnce(n) && Reflects(n) else !AllHarmless(n) || !AtMostOnce(n)
    {
      hide AllHarmless, AtMostOnce, NumberOf, TextOf, Given;
      if e.Valued? {
        SentinelIsExact(m, e.key);
        back := SetOption(e.key, e.arg);
        if back {
          FirstTime(m, e.key, e.arg);
        } else {
          FaultSeen(m, e);
        }
      } else {
        back := TakeSwitch(e);
        if back {
          OtherEvent(m, e);
        } else {
          FaultSeen(m, e);
        }
      }
    }

    /** The defaulting pass over the integers. */
    method DefaultInts()
      modifies `trapPort, `haasPort, `idleTimeout, `connLimit, `forwardMode
      ensures forall key ::
        IntField(key) == if old(IntField(key)) == UNSEEN then IntDefault(key) else old(IntField(key))
    {
      if trapPort == UNSEEN { trapPort := DEFAULT_TRAP_PORT; }
      if haasPort == UNSEEN { haasPort := DEFAULT_HAAS_PORT; }
      if idleTimeout == UNSEEN { idleTimeout := DEFAULT_IDLE_TIMEOUT; }
      if connLimit == UNSEEN { connLimit := DEFAULT_CONN_LIMIT; }
      if forwardMode == UNSEEN { forwardMode := DEFAULT_FORWARD_MODE; }
    }

    /** The defaulting pass over the strings. */
    method DefaultTexts()
      modifies `haasAddr, `keysDir, `banner
      ensures forall key ::
        TextField(key) == if old(TextField(key)).None? then TextDefault(key) else old(TextField(key))
    {
      if haasAddr.None? { haasAddr := Some(DEFAULT_HAAS_HOST); }
      if keysDir.None? { keysDir := Some(DEFAULT_KEYS_FOLDER); }
      if banner.None? { banner := Some(DEFAULT_BANNER_STR); }
    }

    /** The option loop: it stops at the first fault, and there is one only if the whole list has one. */
    method FoldEvents(events: seq<Event>) returns (back: bool)
      requires Reflects(multiset{})
      modifies this
      ensures var m := multiset(events);
              if back then AllHarmless(m) && AtMostOnce(m) && Reflects(m) else !AllHarmless(m) || !AtMostOnce(m)
    {
      back := true;
      var n := 0;
      while back && n < |events|
        invariant n <= |events|
        invariant var m := multiset(events[..n]);
                  if back then AllHarmless(m) && AtMostOnce(m) && Reflects(m) else !AllHarmless(m) || !AtMostOnce(m)
      {
        assert events[..n + 1] == events[..n] + [events[n]];
        back := TakeEvent(events[n], multiset(events[..n]));
        n := n + 1;
      }
      hide Reflects;
      assert events[..n] + events[n..] == events;
      ghost var m := multiset(events);
      if !back && AllHarmless(m) && AtMostOnce(m) {
        FaultsStay(multiset(events[..n]), m);
      }
      assert back ==> events[..n] == events;
    }

    /** Every field is what the specification names for m. */
    ghost predicate Settled(m: multiset<Event>)
      reads this
    {
      && wantHelp == (Help in m) && foreground == (Foreground in m) && debugLevel == m[Debug]
      && forall key :: if IsText(key) then TextField(key) == FinalText(m, key) else IntField(key) == FinalInt(m, key)
    }

    /** The same, field by field. */
    ghost predicate FieldsOf(m: multiset<Event>)
      reads this
    {
      && wantHelp == (Help in m) && foreground == (Foreground in m) && debugLevel == m[Debug]
      && trapPort == FinalInt(m, Key.TrapPort) && haasPort == FinalInt(m, Key.HaasPort)
      && idleTimeout == FinalInt(m, Key.IdleTimeout) && sessionTimeout == FinalInt(m, Key.SessionTimeout)
      && cpuUsage == FinalInt(m, Key.CpuUsage) && processNice == FinalInt(m, Key.ProcessNice)
      && connLimit == FinalInt(m, Key.ConnLimit) && forwardMode == FinalInt(m, Key.ForwardMode)
      && haasAddr == FinalText(m, Key.HaasAddr) && banner == FinalText(m, Key.Banner)
      && haasToken == FinalText(m, Key.HaasToken) && keysDir == FinalText(m, Key.KeysDir)
    }

    lemma FieldsSettled(m: multiset<Event>)
      requires Settled(m)
      ensures FieldsOf(m)
    {
      hide FinalInt, FinalText;
      assert IntField(TrapPort) == trapPort && IntField(HaasPort) == haasPort && IntField(IdleTimeout) == idleTimeout;
      assert IntField(SessionTimeout) == sessionTimeout && IntField(CpuUsage) == cpuUsage;
      assert IntField(ProcessNice) == processNice && IntField(ConnLimit) == connLimit;
      assert IntField(ForwardMode) == forwardMode;
      assert TextField(HaasAddr) == haasAddr && TextField(Banner) == banner;
      assert TextField(HaasToken) == haasToken && TextField(KeysDir) == keysDir;
    }

    /** What follows the loop, unless help is wanted: the two remaining checks and the defaults. */
    method Finish(extra: bool, ghost m: multiset<Event>) returns (back: bool)
      requires Reflects(m) && AllHarmless(m) && AtMostOnce(m)
      modifies this
      ensures back <==> Acceptable(m, extra)
      ensures back ==> Settled(m)
    {
      hide AllHarmless, AtMostOnce, TextOf, NumberOf, Given;
      forall key
        ensures !IsText(key) ==> (NumberOf(m, key) == UNSEEN <==> !Given(m, key))
        ensures TextOf(m, key).None? <==> !Given(m, key)
      {
        SentinelIsExact(m, key);
      }
      back := true;
      if !wantHelp {
        if extra {
          back := false;
        }
        if back && haasToken.None? {
          back := false;
        }
        assert haasToken == TextField(HaasToken);
        if back {
          DefaultInts();
          DefaultTexts();
        }
      }
    }

    /**
     ConfigParse succeeds exactly on the acceptable multisets of events, and on success every field
     is the function of that multiset that the specification names: the order plays no part.
     */
    method ConfigParse(events: seq<Event>, extra: bool) returns (back: bool)
      requires Reflects(multiset{})
      modifies this
      ensures back <==> Acceptable(multiset(events), extra)
      ensures back ==> Settled(multiset(events)) && FieldsOf(multiset(events))
    {
      hide FinalInt, FinalText;
      back := FoldEvents(events);
      if back {
        back := Finish(extra, multiset(events));
      }
      if back {
        FieldsSettled(multiset(events));
      }
    }
  }
}
