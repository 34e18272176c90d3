# A verified model of the HaaS SSH proxy

The proxy accepts SSH connections from attackers, logs them in to a honeypot server (HaaS) and
relays everything between the two sides.  A master process forks one child per connection and
counts the children; each child runs one `ProxyProcess`.  This project models the parts of that
program whose correctness is not visible from one function body, and proves what they keep over
every run.

| file | models |
|---|---|
| `ChildAccounting.dfy`, `Master.dfy` | the SIGCHLD handler, the two tombs and the connection limit of the master (`src/main.c`), first as a transition system of single reads and writes, then as the fields and methods of the process itself |
| `Session.dfy`, `Proxy.dfy` | one connection (`src/proxy.c`): a transition system whose events are callbacks and loop steps, then the class `SshContext` whose methods are the callbacks and loops, each tied to a step of that system |
| `Effects.dfy` | what each event does, call by call and field by field, said without the functions that compute it |
| `Histories.dfy` | what a state says of the events before it, and what becomes of logins, terminal requests, closing forwards, turns of the relay loop and stimuli over whole runs |
| `Script.dfy` | `ProxyProcess` on a script as a flat, deterministic machine of single moves, which the nested loops of the class are proved to follow |
| `Pool.dfy`, `FwPool.dfy` | the forward pool and its pairs (`src/fw_pool.c`, `src/fw_pair.c`): sequences and the sweep, then the array, its growth, and the pair objects |
| `Ledger.dfy` | the calls on libssh and malloc as a log, and the rules a log must keep |
| `Handles.dfy`, `Release.dfy`, `Taint.dfy` | handle validity, and exactly-once release: balanced books if and only if no hazard |
| `Pairs.dfy` | the books of the pairs alone, which second logins and failed opens do not disturb |
| `Routing.dfy` | on which session every channel was opened, and which session every write selects |
| `Streams.dfy`, `Terminal.dfy`, `Growth.dfy` | faithful relaying, the terminal requests, and how the log can grow |
| `Timers.dfy` | `TimerStart`, `TimerGet` and the deadlines of both event loops |
| `HexDump.dfy` | the hex dump printer (`src/debug.c`) and a decoder for its output |
| `Options.dfy` | option folding (`src/config.c`) against a specification that ignores order, and where its numbers are not the ones typed |

libssh, the kernel, malloc and the clock are an environment.  It chooses the order of the events and
the outcome of every call; it promises that a write accepts a prefix or fails, that data comes with a
length of 32 bits, that a channel on a null session is null, that no callback comes after a disconnect
or inside `FwPairRelease`, that a callback libssh makes inside a poll comes before that poll's own
effect, that a handle is never given out twice, and that the clock does not go back.  That nothing
happens inside `FwPairRelease` is what makes the release loop and the final release single steps: it is
used by `Handles.ReleaseClosedSweeps`, `Handles.DropPoolEmpties`, `Proxying.ReleaseClosedLogs` and
`Release.PairReleased`, and through them by whatever is said of runs in which a pair was released.
A theorem over all legal sequences of events is
therefore a theorem over every order of callbacks and every pattern of failures.  The classes are the
program's own form: `Valid` ties their fields to the transition system, and a ghost trace makes every
theorem about runs hold of the object.

Places where the code does not do what it evidently means to are kept as they are in the code.  Four
break the release of handles; each has a whole session that shows it, and `Taint.BalancedIffHazardFree`
says that together they are the only ones:

* a channel whose `ssh_channel_open_forward` fails is freed at src/proxy.c:357 and again at 412-428
  (`Taint.FailedOpenIsFreedTwice`);
* a second successful password login overwrites the first session (src/proxy.c:612-616,
  `Taint.SecondLoginLeaks`), and writes to channels of the first one then select the second
  (`SessionRouting.SecondLoginMisdirects`);
* `FwPoolAdd` stores past the end when `realloc` fails on a full pool (src/fw_pool.c:103,
  `Taint.FailedReallocStoresAnyway`); this is also the only way to lose a pair
  (`PairLedger.PairsReleasedOnce`);
* a pair that `FwPairAlloc` could not allocate is stored and dereferenced (src/proxy.c:384-389,
  `Taint.NullPairIsUsed`).

Three are arithmetic; each has inputs that show it and the exact condition on the input:

* the time left is computed in `int` (src/proxy.c:98-102): up to 2147483 s every reading of a running
  timer is exact, and above that, which the options accept, already the first one overflows
  (`Timers.ExactThreshold`, `Timers.FirstReadingOverflows`); no intermediate value leaves `int` up to
  2147482 s (`Timers.OverflowThreshold`);
* in NULL mode the callback returns a 32-bit length as an `int`, so it consumes everything up to
  `INT_MAX` bytes and nothing beyond (src/proxy.c:1164-1166, `Streams.NullSwallows`,
  `Streams.NullForwards`, and a run in `Streams.NullKeepsTooMany`); libssh's channel window has to allow
  that much to be buffered;
* numeric arguments are narrowed to `int` before the range check (src/config.c:94-99) and port 65535 is
  refused (src/config.c:119): port 4294967318 becomes port 22 (`Options.MisreadExamples`), and a number
  is understood as typed if and only if `Options.Misread` does not hold of it
  (`Options.UnderstoodAsTyped`).

## Model

| member | source | states |
|---|---|---|
| `ChildAccounting.ChildConservation` | src/main.c:314-364 | in every reachable state, with the handler between any two micro-steps: ChildCount plus a forked but uncounted child equals live children, zombies, the child in the handler's hand, both tombs, and the deaths in flight |
| `ChildAccounting.ConnectionBound` | src/main.c:352-364 | ChildCount stays within 0 and the limit, and live plus zombie children never exceed the limit, in every run |
| `ChildAccounting.CoalescedSignals` | src/main.c:53-65 | a zombie exists only while a signal is pending or the handler still loops |
| `ChildAccounting.OneRunReapsAll` | src/main.c:53-65 | one handler run buries every zombie there was and everyone who dies meanwhile, in one tomb, however many deaths one signal stood for |
| `ChildAccounting.HandlerBuries` | src/main.c:53-65 | during a handler run only the current tomb grows, by exactly those reaped; the other tomb, the count and the main loop do not move |
| `ChildAccounting.OtherTombIsEmpty` | src/main.c:314-322 | outside the read and the clear of a harvest the tomb not in use holds 0 |
| `ChildAccounting.EveryDeathOnce` | src/main.c:61-61 | over a whole history every death is a zombie, in the hand, buried, in flight or deducted, once; the count is forks less deductions |
| `ChildAccounting.SwapIsLinearisationPoint` | src/main.c:318-324 | what has been deducted plus what is taken but not yet deducted equals what the tombs held at the instants of the swaps |
| `ChildAccounting.TwoTombsRefineAtomicCounter` | src/main.c:28-40 | every run of the lock-free protocol is, action by action, a run of a machine whose one counter of dead is taken and zeroed atomically |
| `MasterProcess.Master.ReapAll` | src/main.c:53-65 | the waitpid loop ends with no zombie left; the current tomb grew by the zombies there were and the deaths meanwhile, the other is untouched |
| `MasterProcess.Master.SigHandler` | src/main.c:44-66 | a delivery of SIGCHLD moves children from living or zombie to the current tomb and nowhere else |
| `MasterProcess.Master.Preempt` | src/main.c:44-66 | whatever the kernel does between two statements of main conserves the children in use and leaves the other tomb alone |
| `MasterProcess.Master.Retire` | src/main.c:318-319 | remember and switch, with strikes in between: the retired tomb is the one that was current, and its content at the swap leaves the books in use |
| `MasterProcess.Master.Burn` | src/main.c:321-324 | read, clear and subtract, with strikes in between, take exactly the retired content off the count |
| `MasterProcess.Master.Harvest` | src/main.c:306-328 | the whole harvest is one atomic transfer of what the old tomb held at the swap, whatever strikes between its statements; afterwards the count is everyone alive, zombie or in the current tomb |
| `MasterProcess.Master.Accept` | src/main.c:352-378 | a connection is served if and only if the count was below the limit and fork succeeded; count and children in use then grow together |
| `MasterProcess.Master.MainLoop` | src/main.c:293-387 | for every script of select results, forks and strikes: every turn up to the first select that fails for good is taken, in order, and comes to what the script says or to a refusal at the limit; the count ends as the children not yet struck off, within the limit |
| `Handles.HandleInvRun` | src/proxy.c:1246-1364 | the handle invariant holds after every legal sequence of events, until teardown |
| `Handles.HandlesAlwaysValid` | src/proxy.c:1246-1364 | in any order of callbacks the two channels exist together and only on a HaaS session, authentication is having that session, the relay loop runs on four valid handles, and failed logins stay within the limit that cuts the client off; `Histories.LoginsCounted` says that it is the failed logins that are counted |
| `Histories.LoginsCounted` | src/proxy.c:1246-1272 | over every run: `retries` is the number of failed logins in it, at whatever stage they failed, and the client is cut off if and only if that number is 3; authenticated if and only if one succeeded; closed if and only if a main channel was closed |
| `Histories.ThirdFailureCutsOff` | src/proxy.c:1260-1266 | over every run: after the third failed login no callback comes any more |
| `Effects.LoginDoes` | src/proxy.c:547-623 | a successful login keeps the session it opened, a failed one frees it, and counts; the third cuts the client off |
| `Effects.NewChannelDoes` | src/proxy.c:1302-1369 | for every state: with no client channel, a HaaS session and three successes both fields are set, to channels this event opened on the two sessions; in every other case both stay, and what was opened is closed and freed |
| `Effects.DenyDoes` | src/proxy.c:335-335 | in DENY a request calls nothing and changes nothing |
| `Effects.FakeDoes` | src/proxy.c:366-447 | in FAKE an accepted request opens a channel on the client's session, closes it and frees it: these calls, no others, and nothing else changes |
| `Effects.AllowDoes` | src/proxy.c:345-409 | in ALLOW an accepted request for which everything succeeds appends one open pair, with the source it opened on the client's session and the destiny it opened on the HaaS session; a full pool grows by ten slots |
| `Effects.NullAndEchoDo` | src/proxy.c:345-409 | in NULL and ECHO it appends one open pair with the source it opened on the client's session and no destiny |
| `Effects.RefusedDoes` | src/proxy.c:347-447 | what a request that is not accepted calls, in each mode: nothing, or the far channel opened and given back - twice if it did not open |
| `Effects.NoPoolDoes` | src/proxy.c:380-447 | without a pool an accepted request gives back the pair, if malloc gave one, and both channels |
| `Effects.UndefinedDoes` | src/fw_pool.c:90-107 | with a pool but no room or no pair the request ends in what C leaves undefined, and the pool is as before |
| `Effects.CloseDoes` | src/proxy.c:1222-1227 | a close callback marks the pair at its slot closed, and leaves every other pair and every other field as it was |
| `Effects.PollDoes` | src/proxy.c:1436-1463 | one poll of the sweep: one call on the end if there is one, the pair closed exactly if that gave SSH_EOF, no other pair touched, and the loop goes on to the destiny or the next source |
| `Effects.ReleaseDoes` | src/fw_pair.c:76-87 | a released pair's source is closed and freed, then its destiny, then the pair is freed |
| `Effects.DataDoes` | src/proxy.c:895-1060 | client data goes to the HaaS channel on the HaaS session, HaaS data to the client's channel on its session: one write, of the prefix that libssh took |
| `Effects.ForwardDataDoes` | src/proxy.c:1095-1175 | a forward's data is one write: across in ALLOW, back in ECHO, on the session of the end written to; in the other modes there is none |
| `Effects.PollDoneDoes` | src/proxy.c:1731-1757 | what the outcome of a poll comes to in each loop: the end, the relay with the HaaS session added to the event loop, or nothing |
| `Histories.PollOutcomes` | src/proxy.c:1725-1800 | over every run: a poll ends the session if and only if it said leave or a main channel was closed at any time before; the first loop goes on to the relay exactly with a client channel and a login that succeeded |
| `Histories.TurnsPollBoth` | src/proxy.c:1757-1759 | over every run: a turn of the relay loop makes one poll of the client's channel and then one of the HaaS channel, and nothing else |
| `Histories.EveryTurnServes` | src/proxy.c:1753-1765 | on every script: no turn of the relay loop is left or followed by another before, if anything is in the pool, a whole sweep has begun right after those two polls and has ended |
| `Histories.PtyGoesUp` | src/proxy.c:633-665 | over every run: a pty request goes to the HaaS channel, as one call, unless one was granted in the log so far, and is granted as that call says; after a granted one nothing is called and the answer stays yes |
| `Histories.ShellGoesUp` | src/proxy.c:699-730 | the same for a shell |
| `Histories.WindowGoesUp` | src/proxy.c:668-696 | over every run: a window change goes to the HaaS channel, as one call, if and only if a pty was granted in the log so far |
| `Histories.ClosedIsReleased` | src/proxy.c:1222-1227 | over every run: a pooled pair whose close callback came, or one of whose ends gave SSH_EOF, is freed and out of the pool from the end of the next sweep on |
| `Histories.StimulusTaken` | src/proxy.c:1663-1819 | on every script nothing is dropped: each stimulus used was taken up by one move on the way here - a callback happened if it could, the outcome of a poll was acted on with what it said |
| `Handles.ForwardsAlwaysShaped` | src/proxy.c:335-409 | there is no pool exactly in DENY and FAKE or when malloc gave none; every pooled pair has a source, has a destiny exactly in ALLOW, and never one channel as both |
| `SessionRouting.ChannelsPlaced` | src/proxy.c:335-409 | in every reachable state, whatever failed and however often somebody logged in: the client's channel and every pooled source were opened on the client's session; the HaaS channel and a pooled destiny were opened on the HaaS session now held if and only if that session is older than the channel |
| `SessionRouting.ChannelsOnTheirSession` | src/proxy.c:335-409 | with at most one successful login every channel in use was opened on the session held for its side |
| `SessionRouting.WritesSelect` | src/proxy.c:895-1175 | over every run: a write selects the session its channel was opened on if and only if that session is older than the channel |
| `SessionRouting.WritesSelectTheirSession` | src/proxy.c:895-1175 | with at most one successful login every write of the run selects the session its channel was opened on |
| `SessionRouting.BornInOrder` | src/proxy.c:335-623 | handles are given out in increasing order, so older and younger above are the order of the calls |
| `SessionRouting.SecondLoginMisdirects` | src/proxy.c:905-914 | a whole session in which, after a second login, what the client types is written to its channel with the other session selected |
| `Handles.DirectTcpipStep` | src/proxy.c:335-453 | a direct-tcpip request adds at most one pair, at the end of the pool, and touches no other field |
| `Handles.ReleaseClosedSweeps` | src/proxy.c:1466-1481 | the release loop leaves exactly the sweep of the pool and changes nothing else |
| `Handles.DropPoolEmpties` | src/fw_pool.c:36-58 | the final release empties the pool and changes nothing else |
| `Pool.SwapRemoveMultiset` | src/fw_pool.c:113-128 | removal by moving the last slot takes out exactly the indexed element, as a multiset |
| `Pool.SweepKeepsOpen` | src/proxy.c:1466-1481 | the sweep keeps the open pairs; what it takes out, and `Proxying.ReleaseClosedLogs` shows released, is the closed ones, each exactly as often as the pool held it |
| `Proxying.ReleaseClosedLogs` | src/proxy.c:1466-1481 | the calls of the release loop are the releases of the swept pairs, one after the other, and nothing else |
| `Pool.CapacityHistory` | src/fw_pool.c:87-128 | after any adds and removes: Used within Alloc, Alloc ten slots per ten pairs begun at the peak, one grow for each, and 5k(k-1) slots copied by k grows |
| `ForwardPools.FwPool.Grow` | src/fw_pool.c:91-101 | a successful realloc adds ten slots and keeps every pair in its slot |
| `ForwardPools.FwPool.Add` | src/fw_pool.c:87-111 | the pair is appended, or - exactly when the pool is full and realloc fails - the store goes past the end |
| `ForwardPools.FwPool.Remove` | src/fw_pool.c:113-128 | succeeds exactly for an occupied slot; then one slot fewer is used, the last pair is in the freed slot, and every other pair is where it was |
| `ForwardPools.FwPool.FindClosed` | src/fw_pool.c:133-153 | the first closed pair, or -1 when there is none |
| `ForwardPools.FwPool.Get` | src/fw_pool.c:72-82 | the pair in an occupied slot, null for any other index |
| `ForwardPools.FwPool.Done` | src/fw_pool.c:36-58 | every pair still in the pool is released, once and in order, and nothing is left |
| `ForwardPools.FwPool.CapacityFollowsPeak` | src/fw_pool.c:87-111 | at any moment of a pool's life its capacity is fixed by the largest use there ever was |
| `ForwardPools.FwPool.TakeClosed` | src/proxy.c:1466-1478 | find, get and remove together take out the first closed pair; the slots stay pairwise distinct and none holds the pair taken |
| `ForwardPools.DescribesLess` | src/fw_pool.c:113-128 | slots that are distinct objects stay so under swap-removal, and the removed object is gone from them |
| `ForwardPools.FwPair.Release` | src/fw_pair.c:76-87 | both channels are closed and freed, then the pair itself, each once |
| `ForwardPools.EndpointDone` | src/fw_pair.c:31-44 | a channel is closed and freed if there is one, and the endpoint is cleared |
| `Ledger.BalancedMeansExactlyOnce` | src/proxy.c:1810-1819 | balanced books: every session, channel and pair brought to life is ended once, afterwards, and never again |
| `Ledger.ChannelsBeforeSession` | src/proxy.c:1401-1417 | a session is freed only after each of its channels |
| `Ledger.DeadForGood` | src/proxy.c:1401-1417 | a handle once ended is not live and is neither ended nor given out again |
| `Release.HazardFreeKeepsOrder` | src/proxy.c:1302-1819 | without a hazard the log of calls leaves live exactly what the context holds, at every moment, and nothing at the end |
| `Release.NewChannelKeeps` | src/proxy.c:1302-1369 | the client's channel and its mate are kept together or both given back |
| `Release.AuthKeeps` | src/proxy.c:547-623 | a login stores its session or gives it back |
| `Release.DirectTcpipKeeps` | src/proxy.c:335-453 | a forward request ends with its channels owned by a pooled pair or all given back, unless it is a hazard |
| `Release.ReleaseClosedKeeps` | src/proxy.c:1466-1481 | the release loop gives back exactly what the removed pairs held |
| `Release.TearDownBalances` | src/proxy.c:1810-1819 | the teardown gives back pool, channels and sessions, channels before sessions |
| `Release.LeaveRelayBalances` | src/proxy.c:1802-1819 | leaving the relay takes both sessions out of the event loop and balances the books |
| `Taint.BalancedIffHazardFree` | src/proxy.c:1302-1819 | a finished session has given everything back exactly once, in order, with no use after free and the event loop balanced, if and only if there was no second successful login, no failed open of a far channel, and no allocation failure on the way into an existing pool |
| `Taint.EverythingReleasedOnce` | src/proxy.c:1466-1819 | handle by handle over a finished session: every session, channel and pair brought to life is ended at one later place and nowhere else, if and only if there was no hazard |
| `PairLedger.PairsAlwaysKept` | src/fw_pair.c:56-87 | in every reachable state, whatever failed before, the pairs alive are those in the pool and those that met a failed realloc on a full pool |
| `PairLedger.PairCount` | src/fw_pair.c:56-87 | for every handle and in every reachable state: pairs made are pairs freed plus pooled ones plus one if it was lost, and at most one was ever made |
| `PairLedger.PairsReleasedOnce` | src/proxy.c:1466-1813 | over a finished session every pair made is freed exactly once, later, if and only if no allocated pair met a failed realloc on a full pool - whatever else failed, second logins included |
| `Taint.TaintStays` | src/proxy.c:1302-1819 | after a hazard no later event, in any order, repairs the books |
| `Taint.FailedOpenIsFreedTwice` | src/proxy.c:354-428 | a whole session in which a far channel that does not open is freed, then used and freed again |
| `Taint.SecondLoginLeaks` | src/proxy.c:612-616 | a whole session in which a second login leaves the first HaaS session live for ever |
| `Taint.FailedReallocStoresAnyway` | src/fw_pool.c:90-107 | a whole session in which a failed realloc unbalances the books |
| `Taint.NullPairIsUsed` | src/proxy.c:384-390 | a whole session in which a pair that could not be allocated unbalances the books |
| `Streams.StreamFidelity` | src/proxy.c:895-1175 | until teardown, over every run, stdout and stderr apart: bytes written to the peer, then bytes not yet consumed, are the bytes received, whatever the writes accepted - between the client's channel and its HaaS channel both ways, between source and destiny of every pooled pair both ways in ALLOW, and back to the source in ECHO |
| `Streams.PeersFaithful` | src/proxy.c:895-1175 | the same for every channel that ever had a peer, also after it is gone; a channel that is nobody's peer is sent nothing |
| `Streams.DataWrites` | src/proxy.c:895-1175 | a data callback writes the accepted prefix to the channel its route names, or nothing, and returns what was accepted |
| `Streams.NullSwallows` | src/proxy.c:1164-1166 | in NULL a forward's bytes go nowhere; all are consumed up to INT_MAX of them, and none beyond |
| `Streams.NullKeepsTooMany` | src/proxy.c:1164-1166 | a run in NULL with more than INT_MAX bytes told at once: all of them stay pending |
| `Streams.NullForwards` | src/proxy.c:1159-1175 | over every run in NULL, what is pending on a pooled forward is exactly what arrived since its last callback of at most INT_MAX bytes |
| `TerminalProtocol.TerminalOncePerSession` | src/proxy.c:633-725 | over every run, once a pty or a shell was granted upstream no request for one goes upstream again, so at most one of each succeeds; a window change goes up only after a pty that was granted; and the flags that answer later requests say exactly whether it was (RFC 4254, sections 6.2, 6.5 and 6.7) |
| `Growth.NextGrows` | src/proxy.c:289-1819 | no event rewrites the log, ends a handle that the context does not hold and did not just get, takes up one it does not hold, or sends data or terminal requests other than its own |
| `Growth.FlagsStay` | src/proxy.c:633-725 | only pty and shell requests touch the terminal flags |
| `Proxying.SshContext.HaasConnect` | src/proxy.c:547-623 | the new session is stored exactly when the login succeeds, and otherwise freed |
| `Proxying.SshContext.TrapAuthPassword` | src/proxy.c:1246-1272 | a login that succeeds sets the session it opened and leaves the count; one that fails adds one to the count, and the client is cut off from 3 on |
| `Proxying.SshContext.TrapNewChannel` | src/proxy.c:1302-1369 | with no client channel, a HaaS session and three successes both fields hold channels just opened on the two sessions, and those are the calls; it returns the channel there is |
| `Proxying.SshContext.TrapChannelPtyRequest` | src/proxy.c:633-665 | without a pty, one request on the HaaS channel, and its outcome is the answer; with one, yes without a call |
| `Proxying.SshContext.TrapChannelPtyWindowChange` | src/proxy.c:668-696 | with a pty, one window change on the HaaS channel, and its outcome is the answer; without one, no |
| `Proxying.SshContext.TrapChannelShellRequest` | src/proxy.c:699-730 | without a shell, one request on the HaaS channel, and its outcome is the answer; with one, yes without a call |
| `Proxying.SshContext.TrapChannelDataCallback` | src/proxy.c:895-928 | one write of the accepted prefix to the HaaS channel on its session, and its length returned |
| `Proxying.SshContext.HaasChannelDataCallback` | src/proxy.c:1027-1060 | one write of the accepted prefix to the client's channel on its session, and its length returned |
| `Proxying.SshContext.ForwardChannelDataCallback` | src/proxy.c:1095-1175 | told only pair and channel, it makes one write of the accepted prefix: to the opposite end on that end's session in ALLOW, back in ECHO; in NULL none |
| `Proxying.SshContext.ForwardChannelCloseCallback` | src/proxy.c:1222-1227 | this pair's object and its item are closed, and every other item is as it was |
| `Proxying.SshContext.OpenFarChannel` | src/proxy.c:338-363 | the far channel, accepted exactly if it opened; a failed one is freed and still returned |
| `Proxying.SshContext.TrapMessageCallback` | src/proxy.c:289-461 | handled exactly outside DENY, and in ALLOW only if the far channel opened; in DENY no call, in FAKE the three calls of an accepted request; the pool object only grows at its end |
| `Proxying.SshContext.StorePair` | src/proxy.c:380-408 | the pair joins the pool over both channels, or is given back with them when there is no pool |
| `Proxying.SshContext.Callbacks` | src/proxy.c:1725-1725 | exactly the callbacks a script holds before the next poll result take effect, those that can, as in the machine; the pairs in the pool keep their places |
| `Proxying.SshContext.ReleaseClosed` | src/proxy.c:1466-1481 | the release loop on the array does what the specification's release loop does, and terminates |
| `Proxying.SshContext.HandleForwards` | src/proxy.c:1423-1484 | both ends of every pair that was there are polled once, though callbacks close and append pairs meanwhile; in the state from which the sweep begins - the run up to the last event - they are still the first ones; the closed pairs of that state are then released one by one, nothing else is, the pool ends as the multiset of the open ones, and every pair that was ever closed by its callback or by SSH_EOF is freed and gone |
| `Proxying.SshContext.TearDown` | src/proxy.c:1810-1819 | pool, HaaS side and client side are given back as the specification's teardown does |
| `Proxying.SshContext.WaitLoop` | src/proxy.c:1694-1743 | the first loop takes the machine's moves up to the outcome that ends it, and ends with a relay exactly when that outcome did not say leave and nothing had closed, and then on valid handles |
| `Proxying.SshContext.RelayLoop` | src/proxy.c:1753-1800 | the second loop takes the machine's moves up to the outcome that ends it: told to leave, or a channel closed |
| `Proxying.SshContext.ProxyProcess` | src/proxy.c:1663-1819 | for every script the connection comes to the machine's end, with the machine's trace and as much of the script used; its calls are those of that run of the transition system, and the books balance if and only if that run had no hazard |
| `Scripts.OneEnd` | src/proxy.c:1663-1819 | a script determines its session: there is one end, one trace to it, and one place in the script |
| `Scripts.EndsForAReason` | src/proxy.c:1663-1819 | at the machine's end the last event, and the stimulus that called for it, is a failed key exchange, a poll told to leave, or a poll after a channel closed; the script's end counts only when all of it was used |
| `Scripts.MovesAreRun` | src/proxy.c:1663-1819 | the machine's events are a legal run of the transition system and lead to its state |
| `Scripts.CallbackBehind` | src/proxy.c:1423-1484 | no callback moves or removes a pooled pair: those that were there stay the first ones, with their channels |
| `Proxying.Connection` | src/proxy.c:1497-1819 | the same from the creation of the context on: the calls and the trace are the machine's on this script |
| `Timers.TimerGet` | src/proxy.c:93-107 | the narrowing steps together yield the difference of the whole milliseconds modulo 2^32, or overflow; `steps` lists the value of each |
| `Timers.ExactWhen` | src/proxy.c:93-107 | the reading is floor minus floor if and only if the seconds and the difference fit |
| `Timers.WithinOneMilli` | src/proxy.c:93-107 | wherever it is exact the reading is non-negative and within 1 ms of the true remainder |
| `Timers.ExactThreshold` | src/proxy.c:87-107 | every reading of a running timer is floor minus floor if and only if the timeout is at most 2147483 s |
| `Timers.FirstReadingOverflows` | src/proxy.c:98-102 | a longer timeout overflows `int` at its very first reading, whenever it was started |
| `Timers.OverflowThreshold` | src/proxy.c:98-102 | none of the steps of `TimerGet` leaves int, at any reading of a running timer, if and only if the timeout is at most 2147482 s |
| `Timers.LoopTimers.NextTimeout` | src/proxy.c:1704-1723 | one head of a loop: the entry holds the clock readings made, in order, and is the exit or the poll timeout that they and the timers call for |
| `Timers.EventLoops` | src/proxy.c:1689-1800 | for timeouts up to the exact threshold, over any monotone clock and pattern of callbacks: the record holds every reading of the clock once and in order, and its entries are the resets and heads of both loops in their order, up to the first timeout or the end of the clock; every poll is at least 1 ms, passes neither deadline by 1 ms and ends within 1 ms of the nearer; an idle exit means no reset for the idle timeout less under 1 ms; the session deadline is never postponed |
| `HexDump.DumpRoundTrip` | src/debug.c:113-149 | the printed rows decode to the data, are one per sixteen bytes begun, and show each row's offset |
| `HexDump.RowRoundTrip` | src/debug.c:121-145 | one row decodes to its bytes and its offset, also when the offset is wider than four digits |
| `HexDump.RowSpelled` | src/debug.c:121-145 | character by character what a row is: the offset in hex with at least four digits and no needless zero, two hex digits or blanks for each of sixteen positions, and between quotes the byte if it is in 0x20..0x7E, a dot if it is not, a blank if there is none |
| `HexDump.RowsSpelled` | src/debug.c:117-148 | the same for every row of a dump, row k from byte 16k on |
| `HexDump.HexLength` | src/debug.c:121-121 | a number below 16^d has at most d hex digits |
| `HexDump.CounterThreshold` | src/debug.c:117-135 | neither i nor i+j leaves int if and only if Size is at most INT_MAX-15 |
| `HexDump.Sprintf` | src/debug.c:121-127 | text and its NUL go into the buffer at the position, inside it, and everything before stays |
| `HexDump.FormatCells` | src/debug.c:121-129 | the moving position writes offset and hex columns and stays within the first 61 characters |
| `HexDump.FormatText` | src/debug.c:130-145 | the character column follows between its quotes: each byte itself if it is in 0x20..0x7E, a dot if not, a blank past the end |
| `HexDump.PrintRows` | src/debug.c:117-148 | for every Size up to the threshold: one row per sixteen bytes begun, each spelled as `IsRow` says - offset, hex column, quotes and character column - and together they decode to the data |
| `Options.Config.ConfigParse` | src/config.c:133-330 | parsing succeeds exactly on acceptable multisets of options - no fault, none twice, a token, nothing left over, or a request for help - and every field, named one by one, is then what the multiset settles for its option, so order is irrelevant |
| `Options.DefaultsSpelled` | src/config.c:286-325 | what every setting is when it is not given and no help was asked for, number by number and text by text |
| `Options.GivenIsStored` | src/config.c:143-270 | a setting that is given holds the text typed, or the number typed, narrowed to `int` |
| `Options.HelpFillsNothingIn` | src/config.c:271-325 | when help was asked for no default is filled in |
| `Options.Config.FoldEvents` | src/config.c:143-270 | the loop stops at a fault exactly if the whole list has one, and otherwise the fields reflect the multiset |
| `Options.Config.Finish` | src/config.c:272-327 | the closing checks and defaults, on fields that use -1 and NULL for "not seen" |
| `Options.SentinelIsExact` | src/config.c:84-110 | -1 or NULL stands for "not seen" and for nothing else |
| `Options.SettingsInRange` | src/config.c:272-327 | every setting of an accepted command line is in range, defaults included |
| `Options.AcceptsAsMeant` | src/config.c:94-119 | an argument is accepted exactly when it is meant to be, if and only if its number is not misread: port 65535, or a number outside int whose low 32 bits are a value of the option |
| `Options.StoredAsTyped` | src/config.c:97-97 | the narrowed number is the typed one if and only if int can hold it |
| `Options.UnderstoodAsTyped` | src/config.c:84-129 | on a command line with one numeric option: accepted exactly if meant to be, and then with the number typed, if and only if it is not misread |
| `Options.ParsedAsMeant` | src/config.c:133-330 | any command line without a misread number is accepted exactly if it is meant to be, and every number given is stored as typed (one way; the exact forms are the two above) |
| `Options.MisreadExamples` | src/config.c:94-119 | whole command lines: port 4294967318 is taken for port 22, -4294967295 seconds for one second, and port 65535 is refused |
| `Options.ParseInt` | src/config.c:84-110 | accepts exactly a first, clean, positive value after narrowing |
| `Options.ParsePort` | src/config.c:112-129 | the same below 65535, and leaves the value alone otherwise |

## Left out

- libssh itself (cryptography, key exchange, packets, event dispatch) and what `ssh_disconnect` frees of its own: the model has only the contracts above.
- `ssh_new` failing for the client's session: the code passes a null session on; libssh's answer is not in the repository.
- Reuse of addresses: a freed handle is never given out again, so a stale pointer is never mistaken for a new object.
- `CheckUsage`, signals, `SSH_EINTR` and poll errors come in as "leave" or as an empty turn of a loop.
- Pass-through callbacks (exec, subsystem, env, signals, exit status, end of file, X11, agent) and the other authentication methods: each forwards one call or refuses, and resets the idle timer.
- `malloc` and `free` of the pool object and of its `Items` array are not in the ledger; the ledger has sessions, channels and pairs.
- The endpoint addresses copied by `strdup` are stored and cleared but not counted as allocations.
- `HaasAuthenticate` and the JSON password: only whether the login succeeded is kept.
- Socket setup, `daemonize`, the console, `nice`, key paths, the banner and all logging, including the header line of a hex dump and its return value.
- `getopt` and `strtol` are given by what they return.
- The time at which a harvest happens: harvesting needs an interrupted `select`, so the count is safe but not prompt.
- Callbacks that libssh might deliver while another callback waits in a blocking open, connect or write: a callback is one step of the transition system.
- `int` counters that would need more than INT_MAX pairs, retries or children are taken as unbounded.
- Timers.EventLoops: assumes timeouts of at most 2147483 s, the exact threshold; a longer one overflows at its first reading (`Timers.FirstReadingOverflows`), and C promises nothing after that.
- HexDump.PrintRows: assumes Size at most INT_MAX-15, the largest for which the counters cannot overflow.
- Proxying.SshContext.StorePair: after the undefined stores of the two allocation failures the model goes on with the pool unchanged, because C promises nothing there.
- Proxying.SshContext.TearDown: the handles left in the fields after the final frees are not cleared, as in the code, and nothing reads them any more.
