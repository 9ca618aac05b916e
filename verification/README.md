# Verified model of a dVPN client and its privileged helper

The client is an Electron application that buys sessions from VPN nodes with real money, brings
tunnels up and down, and keeps a kill switch. Its helper is a Go program that runs as root and
rewrites firewall chains, routes, policy rules and the resolver file. This project models the
protocols in both, in the form the code has them, and proves what they keep over every run.

Each module stands for one component. State that the code changes in place is a class whose
methods are proved equal to a step of a transition system or to a specification function; the
theorems are about those. Whatever the outside decides (a command that fails, a probe's verdict,
the moment at which a process dies) is a parameter that the theorems quantify over.

| module | component |
|---|---|
| `Lifecycle`, `LifecycleOutcomes`, `ConnectionManager` | connects, reconnects, stand-downs and disconnects around one promise lock, split at their awaits |
| `SmartConnect`, `ChainPurchase` | the two ladders that spend money: smart connect on a plan, and the purchase of a two-hop chain |
| `ResolvConf` | replacing and restoring `/etc/resolv.conf`, with a crash between any two file operations |
| `KillSwitch` | the iptables chains as packet filters, armed and disarmed command by command |
| `TunRoutes` | the TUN routes under longest-prefix match, and the state line between up and down |
| `PolicyRules` | the policy-rule pair of a tunnel and its bounded cleanup |
| `AwgIni`, `AwgUapi`, `AwgPipeline`, `AwgDirectives`, `AwgBuilder`, `AwgBuilt` | the AmneziaWG config from the client's builder through the root-side guard to the device's protocol |
| `AwgPatterns` | the guard's regular expressions, and the translator's words and values, without its code |
| `AwgClientGuard`, `AwgBothGuards` | the client's own guard for the same files, and where it and the helper's port of it part |
| `V2RayConfig`, `Multihop` | rewriting V2Ray configs, judged by a first-match router, and chained configs |
| `RpcHealth`, `RpcMonitor` | choosing an RPC endpoint, and accusing one only after two samples |
| `Framing`, `Socks` | the newline framing of the helper's socket, and the SOCKS5 handshake |
| `Wallets`, `Economics` | merging duplicate wallets, and the provider's break-even arithmetic |
| `Common`, `Text`, `Ipv4` | shared datatypes, string functions and address prefixes |

## Where the code does less than it says

For each of these a lemma says exactly when the code does meet the property. Beside most of them
another shows a run or a family of inputs on which it does not.

- A user disconnect can be undone. Two disconnects that overlap, with a connect between them,
  leave a reconnect armed (`Lifecycle.OverlapLetsReconnectWin`); the comment at
  `src/main/ipc-handlers.ts:335-338` promises that this cannot happen. `Lifecycle.HaltDominatesIff`
  gives the exact condition, and with one halt at a time the promise holds.
- The plan price can leave the wallet twice, when a committed subscription reports no id
  (`SmartConnect.MissingIdChargesTwice`, `SmartConnect.PriceChargedOnceIff`).
- What the handler does with an answered handshake runs inside the handshake's own `try`. If any of
  it throws, the ladder takes the live session for a refunded one and buys another
  (`SmartConnect.MislaidBuysAgain`, `SmartConnect.BuysOnlyAfterRefund`).
- A restore of the resolver that dies between making its temporary symlink and renaming it makes
  the next switch write through that link into the system's own file
  (`ResolvConf.CutClobbersTheOriginal`, `ResolvConf.RestoreAfterSetIff`, `ResolvConf.LinkLeftIff`).
  A switch that dies between writing the backup and its chmod loses permission bits
  (`ResolvConf.SnapshotExactIff`).
- Re-arming the kill switch empties the chain under a live jump when only the first delete fails
  (`KillSwitch.HalfOpenIff`, `KillSwitch.RearmOpens`).
- `TunDown` deletes a bypass or server route that was there before `TunUp`
  (`TunRoutes.DownUndoesUpIff`, `TunRoutes.OwnServerRouteGoes`). After a `TunUp` that failed it goes
  by the state file of an earlier call, if there is one: it leaves what the failed call took, and
  deletes what the old line names
  (`TunRoutes.FailedUpLeaksIff`, `TunRoutes.StaleLineDeletes`).
- `AmneziaWgUp` cleans up after every failure but one, a state file that cannot be written
  (`PolicyRules.StateNotWrittenLeaksIff`, `PolicyRules.SixPairStays`), in either family.
- The guard admits configs that the translator refuses: ';' comments, blanks inside a section's
  brackets, empty values, unpadded keys (`AwgPipeline.AdmittedIsTranslatedIff`,
  `AwgPipeline.SemicolonIsNotTranslated`); the client's builder can produce the last of these (`AwgBuilder.BuiltIsTranslatedIff`).
- The two guards are meant to accept exactly the same files (`daemon/internal/guard/guard.go:7-11`).
  They part on an unpadded header protection key, a byte order mark, U+0085, a dotted capital I, and
  a line break inside a section's brackets, and on nothing else (`AwgClientGuard.GuardsAgreeIff`,
  `AwgClientGuard.ReturnInBrackets`). A file that the builder made with an unpadded header
  protection key passes the client and is refused by the helper (`AwgBothGuards.BuiltAtBothGuards`).
- DNS over HTTPS changes the routing of packets whose rule already names the new outbound
  (`V2RayConfig.RoutingKeptIff`, `V2RayConfig.BalancerTakesDnsOut`).
- A new RPC endpoint can be accused on one sample of its own (`RpcMonitor.AccusedOnOneSample`):
  exactly when the setting leaves the endpoint of a plain probe that is out while no fault is
  published (`RpcMonitor.AccurateExactlyUnlessMisled`). And "checking" can be published between the
  two samples (`RpcMonitor.CheckingComesBetween`): exactly when a cleared path is announced into the
  confirming probe (`RpcMonitor.StrictExactlyUnlessInterrupted`,
  `RpcMonitor.StrictExactlyUnlessExposed`).
- Above the size cap, whether a line is accepted depends on how it was cut
  (`Framing.CapDependsOnChunks`): exactly for lines of up to 16383 bytes more than the cap
  (`Framing.CutsAgreeIff`). A reader that returns data together with EOF has its last lines run
  together (`Framing.ChunkingIndependentIff`, `Framing.EndRunsLinesTogether`).
- The kill switch refuses the host 0.0.0.0, but not 00.0.0.0 (`KillSwitch.ZeroCanBeSpelled`,
  `KillSwitch.ArmsZeroHostIff`).
- A break-even count above 2^53 is rounded and can be too small (`Economics.CountCanBeRounded`).

## Model

| member | source | states |
|---|---|---|
| Lifecycle.StepKeepsWellFormed | src/main/ipc-handlers.ts:330-350 | every step of connects, reconnect timers, stand-downs, disconnects and core exits keeps the lock discipline: only the head of the queue has left the lock, queued epochs are never ahead, and the head's place agrees with what runs |
| Lifecycle.RunKeepsWellFormed | src/main/ipc-handlers.ts:330-350 | the same over every run from the initial state |
| Lifecycle.HaltDominatesIff | src/main/ipc-handlers.ts:1948-1986 | once a disconnect or stand-down body has ended with no connect queued, the tunnel is down and the session cleared; it stays down for every further run without a new connect if and only if no reconnect is armed that can still find a session |
| Lifecycle.OverlapLetsReconnectWin | src/main/ipc-handlers.ts:335-350 | a run of two overlapping disconnects after which a reconnect raises the tunnel |
| Lifecycle.DisconnectDominates | src/main/ipc-handlers.ts:2011-2165 | while halts do not overlap, every run that follows a finished halt without a new connect leaves the tunnel down |
| Lifecycle.DisconnectMidway | src/main/ipc-handlers.ts:1948-1986 | such a run: a disconnect clicked while a connect has the interface up |
| Lifecycle.CalmRun | src/main/ipc-handlers.ts:806-882 | a state with nothing armed and only stale reconnects queued is never left upward |
| Lifecycle.RunDisciplined | src/main/ipc-handlers.ts:806-882 | with one halt at a time, the intent flag is up exactly while a halt is queued, and then no reconnect is armed, over every run |
| LifecycleOutcomes.ConnectOutcome | src/main/ipc-handlers.ts:3281-3445 | a connect clicked when nothing runs and left undisturbed, whatever the environment answers: with every stage a yes the protocol is up in its mode with intent, watchdog and monitor set; at the first no, intent, session and watches are as before and only what the failed stage left is running |
| LifecycleOutcomes.ConnectSucceedsIff | src/main/ipc-handlers.ts:3281-3445 | connected as asked if and only if readiness, bring-up and, in tunnel mode, the traffic probe all said yes |
| LifecycleOutcomes.ProbeRefuses | src/main/ipc-handlers.ts:978-986 | a probe that says no takes the link down and leaves intent and watches alone |
| LifecycleOutcomes.ConnectRefused | src/main/ipc-handlers.ts:3281-3318 | under a live connection or a reconnect, and for local-proxy mode of a root tunnel, a click changes nothing |
| LifecycleOutcomes.DisconnectOutcome | src/main/ipc-handlers.ts:1948-1986 | a disconnect clears link, session, intent and watches and outdates every armed reconnect |
| LifecycleOutcomes.StandDownOutcome | src/main/ipc-handlers.ts:806-845 | a stand-down does the same, exactly while a session is connected in peace |
| LifecycleOutcomes.MonitorOutcome | src/main/ipc-handlers.ts:392-411 | the liveness monitor arms a reconnect exactly when it is on, a session is wanted, none is being attempted, and the tunnel is lost |
| LifecycleOutcomes.CoreExitOutcome | src/main/ipc-handlers.ts:4195-4201 | a core that exits takes the link along and is answered exactly when a session is wanted |
| LifecycleOutcomes.WithoutAutoReconnect | src/main/ipc-handlers.ts:2020-2037 | with automatic reconnects off a lost tunnel is stood down as by a disconnect |
| LifecycleOutcomes.GiveUpByQuota | src/main/ipc-handlers.ts:2043-2054 | so is one that runs out of attempts when the quota is what ended it |
| LifecycleOutcomes.ReconnectOutcome | src/main/ipc-handlers.ts:2069-2165 | a reconnect that comes to its turn undisturbed: restored in its mode with the attempts forgotten if and only if every stage says yes; else down, with intent and watches as before, and the next attempt armed or the ladder given up |
| LifecycleOutcomes.NothingSaved | src/main/ipc-handlers.ts:2076-2084 | without a saved config everything but the session is taken down |
| LifecycleOutcomes.StaleReconnect | src/main/ipc-handlers.ts:2069-2076 | a reconnect of an earlier lifecycle, or without a session, does nothing |
| LifecycleOutcomes.FiveAttempts | src/main/ipc-handlers.ts:2011-2055 | while every attempt fails, exactly five are made and then the ladder gives up |
| LifecycleOutcomes.GiveUpOutcome | src/main/ipc-handlers.ts:1995-2003 | the teardown behind it takes everything down but the session |
| LifecycleOutcomes.ApplyRefused | src/main/ipc-handlers.ts:1077-1094 | under a live connection or a reconnect no session handler starts |
| LifecycleOutcomes.ApplyOutcome | src/main/ipc-handlers.ts:1077-1135 | a handler that starts with nothing connected puts its session in place |
| ConnectionManager.Manager.constructor | src/main/ipc-handlers.ts:330-350 | the module's variables start as the transition system does |
| ConnectionManager.Manager.PerformDisconnect | src/main/ipc-handlers.ts:1948-1986 | the part before the lock is one step: epoch raised, intent set, attempts zeroed, body queued |
| ConnectionManager.Manager.StandDownSession | src/main/ipc-handlers.ts:806-845 | with a session, the part before the lock is that of a disconnect; without one, nothing |
| ConnectionManager.Manager.WatchdogTicks | src/main/ipc-handlers.ts:572-587 | a tick of the quota watchdog is a step, behind its own guard |
| ConnectionManager.Manager.TryReconnect | src/main/ipc-handlers.ts:2011-2055 | scheduling: abort, give up, or arm one timer at the current epoch |
| ConnectionManager.Manager.ReconnectTimerFires | src/main/ipc-handlers.ts:2055-2075 | the timer queues a body with the epoch it captured |
| ConnectionManager.Manager.MonitorTicks | src/main/ipc-handlers.ts:392-411 | a tick of the liveness monitor is a step |
| ConnectionManager.Manager.ChildExits | src/main/ipc-handlers.ts:4195-4201 | the core's exit callback is a step |
| ConnectionManager.Manager.ConnectSegment | src/main/ipc-handlers.ts:3281-3445 | a stretch of the connect body between two awaits is a step; `LifecycleOutcomes.ConnectOutcome` says what the steps come to |
| ConnectionManager.Manager.ReconnectSegment | src/main/ipc-handlers.ts:2075-2165 | a stretch of the reconnect body is a step, with its epoch checks; `LifecycleOutcomes.ReconnectOutcome` says what the steps come to |
| ConnectionManager.Manager.HaltSegment | src/main/ipc-handlers.ts:1955-1986 | a stretch of the disconnect body is a step |
| ConnectionManager.Manager.HeadSegment | src/main/ipc-handlers.ts:346-350 | the body that holds the lock runs to its next await, and the lock passes on when it ends |
| ConnectionManager.Manager.TeardownSegment | src/main/ipc-handlers.ts:1995-2003 | a give-up's teardown runs beside the lock |
| ConnectionManager.Manager.Drive | src/main/ipc-handlers.ts:330-350 | any run of events through the handlers ends where the transition system does, and keeps the lock discipline |
| ConnectionManager.Manager.DriveThroughHalt | src/main/ipc-handlers.ts:335-350 | disconnect dominates, in the variables: after a finished halt no core, interface, monitor or intent is left up by anything but a new connect |
| SmartConnect.PlanSmartConnect | src/main/ipc-handlers.ts:3932-4072 | the ladder's loop does exactly what its specification does, for every candidate list and every pattern of failures |
| SmartConnect.LadderOutcome | src/main/ipc-handlers.ts:3932-4072 | by the answers alone: success if and only if one of the first three candidates reached is won and every earlier one was given back or mislaid, with that candidate's session and the subscription it rides; exhausted if and only if there were fewer than three and all were passed; stopped in exactly the other cases, with the failing candidate |
| SmartConnect.AtMostThreeBroadcasts | src/main/plans/plan-connect.ts:42-43 | at most three session-creating broadcasts |
| SmartConnect.ChecksAreFree | src/main/ipc-handlers.ts:3932-4072 | a candidate that fails its checks before the payment changes nothing for those behind it |
| SmartConnect.BuysOnlyAfterRefund | src/main/plans/plan-connect.ts:110-125 | every broadcast happens with no session outstanding and no transaction in doubt, if and only if no live session is mislaid, after nothing but refunds, with budget and a further candidate left |
| SmartConnect.WhatIsLeft | src/main/plans/plan-connect.ts:110-125 | where nothing is mislaid, a success leaves exactly the returned session, an exhausted ladder none, a stopped one at most one |
| SmartConnect.MislaidBuysAgain | src/main/ipc-handlers.ts:4006-4064 | a run that holds two live sessions |
| SmartConnect.PriceChargedOnceIff | src/main/plans/plan-connect.ts:127-137 | the plan price is charged at most once, if and only if it is not the case that the first subscription committed without an id, the ladder went on, and there was another candidate to buy from |
| SmartConnect.PriceChargedOnce | src/main/plans/plan-connect.ts:127-137 | the documented rule, given that committed subscriptions report their id |
| SmartConnect.MissingIdChargesTwice | src/main/plans/plan-service.ts:614-637 | a run that pays the plan price twice |
| SmartConnect.EstablishSessionOrRefund | src/main/ipc-handlers.ts:1368-1425 | success if and only if one of at most three handshakes is answered; no further one once the node has seen the session; one refund exactly when none was answered |
| ChainPurchase.EstablishChainOrRefund | src/main/ipc-handlers.ts:1521-1588 | succeeds if and only if all ten steps said yes, and leaves the trace of its acts, at every failure point |
| ChainPurchase.RefundEachInTurn | src/main/vpn/connect-decisions.ts:59-74 | one cancel for each purchase, in order, whatever the others did |
| ChainPurchase.BuyingIsLegal | src/main/ipc-handlers.ts:1521-1560 | every order of acts keeps the protocol: a session is handshaked only behind its purchase, the proxy starts only after the entry's handshake, the exit is preflighted, graded, bought and handshaked only through the live proxy, and the chain is finalized only after both handshakes |
| ChainPurchase.CancelsAreLegal | src/main/ipc-handlers.ts:1445-1468 | the cancels are legal to their end exactly when the lookup by session id finds each buyer |
| ChainPurchase.PurchaseIsLegalIff | src/main/ipc-handlers.ts:1521-1588 | at every failure point: legal exactly when it succeeds or two purchases of one session id have one signer; then no proxy is left running, and either both sessions are handshaked and none is cancelled, or each paid session has had exactly one cancel |
| ChainPurchase.HandshakedOnceEach | src/main/ipc-handlers.ts:1521-1588 | a successful purchase has exactly one answered handshake with each hop |
| ResolvConf.Host.DnsSet | daemon/internal/ops/dns.go:47-78 | with any number of file operations before it dies, the files are those after that prefix of its plan; a resolver off the list changes nothing |
| ResolvConf.Host.DnsRestore | daemon/internal/ops/dns.go:84-104 | the same for the restore; and what its caller is told: a failed copy is a warning, a failed rename an error |
| ResolvConf.ToldMeans | daemon/internal/ops/dns.go:84-104 | the warning and the error of a restore, by the operation that failed |
| ResolvConf.Host.CopyPreservingLink | daemon/internal/ops/dns.go:15-36 | the copy of a link or a file, cut anywhere |
| ResolvConf.RecordIsOrigin | daemon/internal/ops/dns.go:47-104 | over every run, cut anywhere, backup and marker record exactly the entry from before the first switch, but for bits of the umask |
| ResolvConf.SnapshotExactIff | daemon/internal/ops/dns.go:27-36 | the record is exact unless the switch died between writing the backup and its chmod |
| ResolvConf.CompletedRestore | daemon/internal/ops/dns.go:84-104 | a restore that reaches its end puts the recorded entry back and ends the session |
| ResolvConf.RestoreCanBeRetried | daemon/internal/ops/dns.go:80-104 | a restore that was cut or failed keeps the record, and the next that reaches its end puts back the same entry |
| ResolvConf.NeverAbsent | daemon/internal/ops/dns.go:44-46 | an originally present resolver file is present at every moment of every run |
| ResolvConf.CompletedSet | daemon/internal/ops/dns.go:69-77 | a completed switch takes effect for readers; it leaves a regular file exactly when no symlink was left at the temporary name |
| ResolvConf.LinkLeftIff | daemon/internal/ops/dns.go:84-98 | the only ways to have a symlink at the temporary name |
| ResolvConf.RestoreReturnsLookup | daemon/internal/ops/dns.go:84-104 | without that cut, readers see after the restore what they saw before the session |
| ResolvConf.RestoreAfterSetIff | daemon/internal/ops/dns.go:47-104 | a set and a restore keep what readers see exactly when no link was left, or its file already held our text |
| ResolvConf.CutClobbersTheOriginal | daemon/internal/ops/dns.go:47-104 | with that cut the system's own resolver file is overwritten and stays so |
| KillSwitch.Firewall.KillswitchOn | daemon/internal/ops/killswitch.go:84-151 | refused arguments change nothing; else both families are what their command lists leave, whichever calls fail; where the IPv6 calls get the lock its chain is complete under one jump, and where one fails and the teardown works it is gone; an error can come back from an armed firewall whose state file failed |
| KillSwitch.ArmsZeroHostIff | daemon/internal/ops/killswitch.go:93-101 | exactly which accepted arguments arm a host of value zero: those whose address is zeros alone; none without leading zeros |
| KillSwitch.ZeroHostStrands | daemon/internal/ops/killswitch.go:96-98 | what such a chain then lets through, packet by packet |
| KillSwitch.ZeroCanBeSpelled | daemon/internal/ops/killswitch.go:96-101 | such spellings, 00.0.0.0 among them: they are armed, and the chain drops the tunnel's own packets |
| KillSwitch.Firewall.KillswitchOff | daemon/internal/ops/killswitch.go:156-167 | both chains are torn down, whichever calls fail |
| KillSwitch.ChainAcceptsIff | daemon/internal/ops/killswitch.go:109-135 | the complete IPv4 chain accepts a packet exactly when it leaves by loopback or the tunnel, goes to the server, is UDP to ports 67-68, or goes to a shared local range; so the resolver and conntrack rules let nothing more through |
| KillSwitch.Chain6AcceptsIff | daemon/internal/ops/killswitch.go:61-82 | the IPv6 chain likewise |
| KillSwitch.ArmedSends | daemon/internal/ops/killswitch.go:84-135 | what an armed host sends, given what earlier rules of other programs decide |
| KillSwitch.ArmedAsAsked | daemon/internal/ops/killswitch.go:89-135 | for the arguments of a call: beyond what earlier rules decide, exactly loopback, the tunnel, the named server, DHCP and, if asked, the shared ranges |
| KillSwitch.Armed6Sends | daemon/internal/ops/killswitch.go:61-82 | the IPv6 twin: exactly loopback, the tunnel and, if asked, the shared ranges |
| KillSwitch.Armed6 | daemon/internal/ops/killswitch.go:138-147 | what an arm leaves in the IPv6 tables, whether its calls work or fail |
| KillSwitch.DnsRulesMean | daemon/internal/ops/killswitch.go:120-127 | the resolver's rules let through its own port 53 by the tunnel and nothing else |
| KillSwitch.SharedRanges4 | daemon/internal/ops/killswitch.go:23-23 | the shared IPv4 ranges as intervals of addresses |
| KillSwitch.SharedRanges6 | daemon/internal/ops/killswitch.go:24-25 | and those of IPv6 |
| KillSwitch.HalfOpenIff | daemon/internal/ops/killswitch.go:103-141 | at every moment of an arm, OUTPUT runs through a chain without its DROP exactly when an old jump outlived the first delete and the chain was flushed under it |
| KillSwitch.RearmOpens | daemon/internal/ops/killswitch.go:103-108 | such a moment |
| KillSwitch.NeverHalfOpen | daemon/internal/ops/killswitch.go:89-167 | over every run of arms and disarms in which the jump deletes take effect, never at any moment; other programs' rules survive |
| KillSwitch.RearmIsFreshArm | daemon/internal/ops/killswitch.go:103-141 | a successful arm leaves what a fresh one leaves, whatever was there |
| KillSwitch.OffUndoesOn | daemon/internal/ops/killswitch.go:156-167 | off after on restores OUTPUT |
| TunRoutes.Host.TunUp | daemon/internal/ops/tun.go:62-147 | which of its nine outcomes is returned, and the routes and state file after each, with whatever the state file was before |
| TunRoutes.UpOutcome | daemon/internal/ops/tun.go:62-147 | which outcome a call has, by its arguments, the environment and the table: the first refusal or step that said no |
| TunRoutes.RefusedChangesNothing | daemon/internal/ops/tun.go:62-90 | a refused call leaves routes and state file alone |
| TunRoutes.KeptMeans | daemon/internal/guard/guard.go:382-405 | exactly the prefixes of one bit or more at a nonzero address are kept |
| TunRoutes.Host.TunDown | daemon/internal/ops/tun.go:154-193 | the routes after a teardown, from the recorded line or without it |
| TunRoutes.StateLineRoundTrip | daemon/internal/ops/tun.go:145-178 | the reader gets back the pid, the server and every bypass prefix that were written |
| TunRoutes.LookupIsLongest | daemon/internal/ops/tun.go:55-61 | the router's lookup is longest-prefix match (RFC 4632, section 5.1) |
| TunRoutes.TunnelTakesIff | daemon/internal/ops/tun.go:127-144 | after a successful up, an address enters the tunnel exactly when nothing longer than a half covers it |
| TunRoutes.OnlyDetoursEscape | daemon/internal/ops/tun.go:55-61 | of the addresses that only a default route covered, only the server and the bypass prefixes stay outside |
| TunRoutes.ServerStaysOutside | daemon/internal/ops/tun.go:127-129 | the core's own packets never enter the tunnel |
| TunRoutes.DownAfterUpIff | daemon/internal/ops/tun.go:62-196 | after any up, whatever its outcome and the old state file, down restores the table if and only if the state file then names every prefix that was newly taken and none that was there before |
| TunRoutes.DownUndoesUpIff | daemon/internal/ops/tun.go:154-193 | once the line is written, exactly when none of the detours was there before |
| TunRoutes.FailedUpLeaksIff | daemon/internal/ops/tun.go:115-147 | after an up that failed without writing its line: exactly when the old line names the server's prefix if that was taken, every bypass prefix taken if only the state file failed, and nothing that was there before |
| TunRoutes.FailedFirstUpLeaksIff | daemon/internal/ops/tun.go:115-147 | with no old line: exactly when nothing was taken |
| TunRoutes.StaleLineDeletes | daemon/internal/ops/tun.go:154-193 | a failed up and a down delete a route that was there all along, on the word of an old line |
| TunRoutes.OwnServerRouteGoes | daemon/internal/ops/tun.go:127-193 | a server route of the host's own does not survive an up and a down |
| PolicyRules.Kernel.CleanupWgRules | daemon/internal/ops/wireguard.go:122-143 | nothing while a tunnel that could own the rules is left; else both families cleaned, whichever deletes fail |
| PolicyRules.Kernel.WgRuleTables | daemon/internal/ops/wireguard.go:92-116 | the tables of fwmark rules, in range, each once |
| PolicyRules.Kernel.AmneziaWgUp | daemon/internal/ops/amneziawg.go:93-162 | the rules after every outcome of a bring-up |
| PolicyRules.Kernel.AmneziaWgDown | daemon/internal/ops/amneziawg.go:188-211 | the rules after a teardown |
| PolicyRules.CollectMeans | daemon/internal/ops/wireguard.go:92-116 | exactly the tables in 51820-51899 that some fwmark rule leads to, in order |
| PolicyRules.DoomedMeans | daemon/internal/ops/wireguard.go:92-143 | what a cleanup is after: tables 51820-51899 that some fwmark rule leads to, and the suppress rules of main |
| PolicyRules.UpSucceedsIff | daemon/internal/ops/amneziawg.go:93-162 | a bring-up gets through exactly when no step fails but those for IPv6 |
| PolicyRules.CleanFamilyEffect | daemon/internal/ops/wireguard.go:118-143 | however its commands fail, rules outside the range and the suppress pair keep their places, and no kind loses more than 32; when they work, exactly what is over 32 is left |
| PolicyRules.CleanFamilyClearsIff | daemon/internal/ops/wireguard.go:118-143 | all targets are gone exactly when no kind had more than 32 |
| PolicyRules.UpLayers | daemon/internal/ops/amneziawg.go:140-183 | however far a bring-up gets, it has put at most one pair before the prior rules of each family; one that gets through has the whole IPv4 pair if asked, and of the IPv6 pair what the kernel took |
| PolicyRules.CleanRestoresIff | daemon/internal/ops/amneziawg.go:93-105 | a failed bring-up, or up and then down, returns both families to their prior rules, exactly unless another tunnel keeps the cleanup away |
| PolicyRules.StateNotWrittenLeaksIff | daemon/internal/ops/amneziawg.go:140-162 | when the state file cannot be written, both families are as before if and only if IPv4 was not asked for and no IPv6 rule was taken |
| PolicyRules.SixPairStays | daemon/internal/ops/amneziawg.go:156-162 | a bring-up for IPv6 alone that leaves its pair |
| AwgIni.AssertAmneziaWgConfig | daemon/internal/guard/guard.go:158-202 | the guard's verdict on a file is that of its lines in their sections |
| AwgIni.ReadersAgreeIff | daemon/internal/guard/guard.go:166-202 | on every line the guard accepts, the translator and extractor read the same section or key and value, except for ';' comments and headers with blanks inside the brackets |
| AwgPatterns.GuardTable | daemon/internal/guard/guard.go:44-155 | the guard's hand-read shapes are exactly the languages of its regular expressions: for each key word of each section, which values are admitted, with the bounds of the numbers; no other word is |
| AwgUapi.ToUAPI | daemon/internal/amneziawg/amneziawg.go:146-256 | succeeds exactly on the files that describe a device, and its text, read by the device's protocol over whatever the device was, adds the described settings in order with the mark and replaces all peers by the described ones |
| AwgUapi.HexKeepsTheKey | daemon/internal/amneziawg/amneziawg.go:262-269 | keys that reach the device alike are the same 32 bytes |
| AwgPatterns.HexSpellsTheKey | daemon/internal/amneziawg/amneziawg.go:262-269 | the hex that the device is given is the number that the base64 spells |
| AwgPatterns.SextetMeans | daemon/internal/amneziawg/amneziawg.go:262-269 | a character counts for its place in the alphabet (RFC 4648, section 4) |
| AwgPatterns.TranslatorTable | daemon/internal/amneziawg/amneziawg.go:258-300 | for each word and value, what it becomes: keys hex, numbers below 2^32 and ranges themselves, on and off a truth value; no other word is passed on |
| AwgPatterns.TranslatedWords | daemon/internal/amneziawg/amneziawg.go:66-130 | exactly which words the translator knows in each section |
| AwgPatterns.NameTable | daemon/internal/amneziawg/amneziawg.go:66-130 | the device's name for each of them |
| AwgUapi.ClearedFirst | daemon/internal/amneziawg/amneziawg.go:244-254 | each peer's addresses are cleared right behind its key |
| AwgUapi.TextRoundTrip | daemon/internal/amneziawg/amneziawg.go:230-255 | the written text parses to the lines it was written from |
| AwgUapi.RecordMeans | daemon/internal/amneziawg/amneziawg.go:197-226 | recording a line of a peer records its meaning |
| AwgPipeline.AdmittedIsTranslatedIff | daemon/internal/amneziawg/amneziawg.go:146-256 | which of the files that the guard admits the translator takes |
| AwgPipeline.SemicolonIsNotTranslated | daemon/internal/amneziawg/amneziawg.go:146-256 | one that it does not |
| AwgPipeline.SameReading | daemon/internal/guard/guard.go:166-202 | a plain admitted file is read alike, line by line |
| AwgDirectives.ParseAwgDirectives | daemon/internal/ops/amneziawg.go:259-322 | the extraction loop against its specification, with its two errors |
| AwgDirectives.DirectivesMean | daemon/internal/ops/amneziawg.go:259-322 | without the loop: every address, resolver and search domain of its section in file order, the last MTU and endpoint, the full ranges named; refused exactly without an address or an endpoint's host |
| AwgDirectives.DefaultRoutesMatchDevice | daemon/internal/ops/amneziawg.go:300-312 | a family gets its default route exactly when the device was told to carry all of it |
| AwgDirectives.EndpointHostRecovered | daemon/internal/ops/amneziawg.go:324-336 | the host of an admitted endpoint is recovered |
| AwgDirectives.BracketedHostRecovered | daemon/internal/ops/amneziawg.go:324-336 | and of one in brackets |
| AwgBuilder.BuildAmneziaWgConfig | src/main/protocols/amneziawg-config.ts:112-232 | exactly when the builder refuses, and the file otherwise |
| AwgBuilder.BuiltIsTranslatedIff | src/main/protocols/amneziawg-config.ts:112-232 | every built file passes the root-side guard, and becomes exactly the device that was meant if and only if the node's key is in standard padding |
| AwgBuilt.SoundMeans | src/main/protocols/amneziawg-config.ts:118-182 | exactly which answers of a node are built from, bound by bound |
| AwgBuilt.FirstHostMeans | src/main/protocols/amneziawg-config.ts:131-134 | the endpoint is the first address that is not empty |
| AwgBuilt.JunkMeans | src/main/protocols/amneziawg-config.ts:78-84 | the junk parameters that can be drawn, and that the least is below the largest |
| AwgBuilt.DeviceIsTheAnswer | src/main/protocols/amneziawg-config.ts:187-231 | through file, translator and protocol, for keys in standard padding: each parameter of the answer is the device's setting of that name, the device has no other, and its one peer is the node at its endpoint |
| AwgBuilt.BuiltIsDirected | daemon/internal/ops/amneziawg.go:259-336 | and the helper finds in the file the assigned addresses, the three resolvers, the tier's MTU, the node's host and both default routes |
| AwgBuilder.FileReads | src/main/protocols/amneziawg-config.ts:187-231 | every reader sees the two sections that were built |
| AwgClientGuard.AssertSafeAmneziaWgConfig | src/main/config-guard.ts:498-529 | the client's verdict on a file is that of its lines in their sections |
| AwgClientGuard.GuardsAgreeIff | daemon/internal/guard/guard.go:7-11 | what the client accepts, the helper accepts if and only if no line but a comment holds a byte order mark or an unpadded header protection key; what the helper accepts, the client accepts if and only if no line but a comment holds U+0085, a dotted capital I, or a line break inside brackets |
| AwgClientGuard.OneLineMeans | src/main/config-guard.ts:498-529 | the four line breaks that the client's section pattern does not match |
| AwgClientGuard.AfterClient | src/main/config-guard.ts:452-529 | the same for one line in its section: the helper ends in the same section or refuses |
| AwgClientGuard.AfterHelper | daemon/internal/guard/guard.go:125-202 | and the other way round |
| AwgClientGuard.AssertWireguardConfig | daemon/internal/guard/guard.go:92-96 | the helper's verdict on a plain WireGuard file |
| AwgClientGuard.AssertSafeWireguardConfig | src/main/config-guard.ts:88-119 | the client's |
| AwgClientGuard.PlainWords | daemon/internal/guard/guard.go:39-41 | the words of plain WireGuard, section by section |
| AwgClientGuard.WireguardGuardsAgreeIff | daemon/internal/guard/guard.go:7-11 | the same comparison for plain WireGuard: the two part on the same characters and nothing else |
| AwgClientGuard.AsciiFilesAgree | daemon/internal/guard/guard.go:7-11 | one verdict on every ASCII file without carriage returns and unpadded header protection keys |
| AwgClientGuard.ReturnInBrackets | daemon/internal/guard/guard.go:166-180 | a file that only the helper accepts |
| AwgBothGuards.BuiltAtBothGuards | src/main/protocols/amneziawg-config.ts:112-232 | every built file passes the client's guard; it passes the helper's, after the payment, if and only if its header protection key is in standard padding; and becomes a device if and only if the node's public key is too |
| AwgBothGuards.LooseKeyMeans | src/main/config-guard.ts:472-480 | the client's guard takes exactly the header protection keys that the builder takes |
| V2RayConfig.AssertSafe | src/main/config-guard.ts:337-365 | the check is exactly: outbounds, a quiet log, loopback inbounds |
| V2RayConfig.SafeMeans | src/main/config-guard.ts:337-365 | the check, spelled out: some outbound, no log file, every listener on loopback |
| V2RayConfig.DohTable | src/main/config-guard.ts:690-696 | which resolvers are asked over HTTPS, and by which names and addresses |
| V2RayConfig.DohKeeps | src/main/config-guard.ts:715-787 | the rewrite adds one outbound, rules in front and the resolver, and nothing else changes |
| V2RayConfig.PinnedExactly | src/main/config-guard.ts:300-328 | of every endpoint only a name that resolves is replaced, by what it resolves to |
| V2RayConfig.RoutingKeptIff | src/main/config-guard.ts:715-787 | a packet that is neither intercepted nor the resolver's is carried as before, exactly unless its rule names the new outbound |
| V2RayConfig.BalancerTakesDnsOut | src/main/config-guard.ts:768-771 | a balancer that selects every tag takes the new outbound in |
| V2RayConfig.InterceptedGoesToDns | src/main/config-guard.ts:775-783 | every intercepted query goes to the resolver's outbound, or to an outbound of the old config that already has the tag dns-out |
| V2RayConfig.ResolverEgress | src/main/config-guard.ts:745-761 | where the resolver's own requests leave: by the balancer of the first rule that balances an intercepted inbound, else the first named balancer, else the first named outbound, else as the old rules say |
| V2RayConfig.SocksTagsMean | src/main/config-guard.ts:736-744 | exactly the tagged socks inbounds are intercepted |
| V2RayConfig.PinnedOrUnresolvable | src/main/config-guard.ts:300-328 | after pinning an address is a literal or cannot be resolved, and pinning again changes nothing |
| V2RayConfig.PreparedIsSafe | src/main/vpn/vpn-manager.ts:817-822 | preparation fails exactly on an unsafe config; the later rewriting keeps safety and every pin |
| Multihop.SelectionMeans | src/main/protocols/multihop-config.ts:263-289 | an inbound is selected exactly when one has shape and keys; Reality first; never one that cannot be authenticated |
| Multihop.TransportTables | src/main/protocols/multihop-config.ts:87-152 | the transport tables of both protocols, code by code |
| Multihop.FirstAddressIs | src/main/protocols/multihop-config.ts:414-420 | the address is the first that is given |
| Multihop.ChainBuildsIff | src/main/protocols/multihop-config.ts:414-541 | a chain can be built exactly when both hops have an inbound for their role and an address |
| Multihop.GradeMeans | src/main/protocols/multihop-config.ts:323-351 | what the grade before the purchase says |
| Multihop.GradePredictsSelection | src/main/protocols/multihop-config.ts:308-351 | what can be built was eligible, and is wrapped as shown exactly when Reality was not shown or turns out to have keys |
| Multihop.ExitIsEntry | src/main/protocols/multihop-config.ts:323-351 | an eligible exit is an eligible entry |
| Multihop.ExtractRemoteHost | src/main/vpn/vpn-manager.ts:345-373 | the address that the bypass route and kill switch name: hysteria2's server, or the search over the outbounds, then the lookup |
| Multihop.NamedHostMeans | src/main/vpn/vpn-manager.ts:345-373 | a server that names the loopback or nothing leaves the search to the outbounds |
| Multihop.FirstDialIs | src/main/vpn/vpn-manager.ts:357-373 | the search answers the first address that an outbound dials, and nothing exactly when none does |
| Multihop.ServerHostRecovered | src/main/vpn/vpn-manager.ts:351-356 | the host of a hysteria2 server is recovered, in brackets or not |
| Multihop.ServerHostWithout | src/main/vpn/vpn-manager.ts:351-356 | without a separator the last character is cut off |
| Multihop.ProvisioningDialsEntry | src/main/protocols/multihop-config.ts:485-510 | the proxy that the exit is bought through dials the entry directly, as its selected inbound speaks and exactly as the chain will, and can be built for every chain that can |
| Multihop.PinnedIsNamed | src/main/vpn/vpn-manager.ts:308-313 | in a prepared chain, the address that route and kill switch name is the pinned one that the core dials |
| Multihop.ChainPath | src/main/protocols/multihop-config.ts:360-541 | as the core is given a chain, traffic leaves by the exit, which is dialed through the entry, which is dialed directly; each end is the inbound that was selected: vless exactly for its proxy code and else vmess, vision exactly with its flow, the transport's network, the port, the pin or the Reality keys, and its own account; the exit rides plain TCP |
| Multihop.ChainDnsLeavesByExit | src/main/config-guard.ts:715-787 | on a chain, queries on port 53 go to the resolver, and its own requests leave by the exit |
| Multihop.EntryIsDialed | src/main/protocols/multihop-config.ts:518-541 | in a prepared chain only the entry is dialed from here, and it is the named host unless its address is the loopback |
| RpcHealth.TargetInConsensus | src/shared/rpc-health.ts:156-181 | a switch target is on the right chain and within ten blocks of the tallest height |
| RpcHealth.TargetIsBest | src/shared/rpc-health.ts:185-209 | a target is healthy if any rival is, and then no slower than any |
| RpcHealth.LeavesUnfitIff | src/shared/rpc-health.ts:185-209 | an endpoint out of consensus or unknown is left exactly if there is any rival |
| RpcHealth.LeavesDegradedIff | src/shared/rpc-health.ts:185-209 | a degraded one in consensus exactly for a healthy rival |
| RpcHealth.NoHeightNoSwitch | src/shared/rpc-health.ts:171-184 | with no height known nothing is switched |
| RpcHealth.FastestIsFirst | src/shared/rpc-health.ts:140-151 | of the equally fast, the first |
| RpcHealth.LeavesHealthyIff | src/shared/rpc-health.ts:185-207 | a healthy endpoint in consensus is left exactly for a healthy one faster by more than 250 ms |
| RpcHealth.FasterTakesOver | src/shared/rpc-health.ts:185-207 | a switch that happens |
| RpcHealth.StallSwitchesNothing | src/shared/rpc-health.ts:171-184 | when everyone lags, nothing is switched |
| RpcHealth.NoFlap | src/shared/rpc-health.ts:185-209 | an endpoint that was just switched to is kept |
| RpcHealth.PickBestRpc | src/shared/rpc-health.ts:140-151 | never the current endpoint, a failing one or one that is down |
| RpcHealth.BestOffer | src/shared/rpc-health.ts:140-151 | something is offered whenever something can be, and no better one exists |
| RpcMonitor.HealthMonitor.OnProbeReturns | src/main/chain/rpc-monitor.ts:180-225 | the stretch after a probe is a step |
| RpcMonitor.HealthMonitor.RefreshRpcHealth | src/main/chain/rpc-monitor.ts:170-180 | the stretch before it |
| RpcMonitor.HealthMonitor.OnRpcEndpointChanged | src/main/chain/rpc-monitor.ts:243-247 | a change of endpoint is a step |
| RpcMonitor.HealthMonitor.OnChainPathChanged | src/main/chain/rpc-monitor.ts:259-263 | a change of path is a step |
| RpcMonitor.PollOutcome | src/main/chain/rpc-monitor.ts:155-225 | a poll from its start to its end: a good reading is published at once, a bad one held and probed again once, and the second published |
| RpcMonitor.FaultOutcome | src/main/chain/rpc-monitor.ts:180-225 | under a published fault the next reading replaces it at once, and the same fault selects nothing again |
| RpcMonitor.ClosedPath | src/main/chain/rpc-monitor.ts:170-200 | with the path closed, what is published is the reason |
| RpcMonitor.TimerEnds | src/main/chain/rpc-monitor.ts:210-263 | the timer fires once, and a change of endpoint or a stop takes it back |
| RpcMonitor.ClearedPath | src/main/chain/rpc-monitor.ts:249-263 | a cleared path is published as checking and probed |
| RpcMonitor.TwoSamples | src/main/chain/rpc-monitor.ts:155-225 | over every run, a new fault is published only by a confirming probe that came back bad, after a bad sample that was held, with no publication between that the endpoint is well or the path closed |
| RpcMonitor.TwoSamplesFromStart | src/main/chain/rpc-monitor.ts:155-225 | so for every run of a monitor from its start |
| RpcMonitor.TwoSamplesStrictly | src/main/chain/rpc-monitor.ts:249-263 | nothing at all between, in every run in which no cleared path is announced into a confirming probe |
| RpcMonitor.StrictExactlyUnlessInterrupted | src/main/chain/rpc-monitor.ts:259-263 | of all steps exactly that announcement breaks it, for the continuations without another |
| RpcMonitor.StrictExactlyUnlessExposed | src/main/chain/rpc-monitor.ts:170-210 | for the continuations that announce every cleared path at once, exactly the timer that starts its confirming probe before the announcement |
| RpcMonitor.EarlyProbeIsHarmless | src/main/chain/rpc-monitor.ts:170-180 | so not a plain probe that is sent before it |
| RpcMonitor.CheckingComesBetween | src/main/chain/rpc-monitor.ts:249-263 | a run where something is |
| RpcMonitor.BothSamplesOfTheAccused | src/main/chain/rpc-monitor.ts:243-247 | both samples are of the accused endpoint, in every run in which the setting does not leave the endpoint of a plain probe that is out while no fault is published |
| RpcMonitor.StaysAccurateIff | src/main/chain/rpc-monitor.ts:170-247 | a state keeps that promise over all such continuations if and only if timer, confirming probe and plain probe have the right endpoint's sample |
| RpcMonitor.AccurateExactlyUnlessMisled | src/main/chain/rpc-monitor.ts:243-247 | of all steps exactly such a change breaks it; under a published fault none does |
| RpcMonitor.AccusedOnOneSample | src/main/chain/rpc-monitor.ts:170-247 | a run where they are not |
| RpcMonitor.SelectionPerFaultIff | src/main/chain/rpc-monitor.ts:207-221 | the automatic selection starts exactly when a fault is published anew |
| Framing.Reader.ReadLine | daemon/internal/protocol/protocol.go:94-123 | one call against its specification |
| Framing.ChunkingIndependentIff | daemon/internal/protocol/protocol.go:94-123 | for every cut of a stream of lines within the cap, exactly the stream's lines and then a clean end, if and only if the read that reports the end brings no newline |
| Framing.ChunkingIndependent | daemon/internal/protocol/protocol.go:94-123 | so for every reader that never returns data together with EOF |
| Framing.BrokenYieldsTerminated | daemon/internal/protocol/protocol.go:108-121 | a connection that breaks yields the lines that were terminated, whatever the cut, and then the error |
| Framing.NothingLost | daemon/internal/protocol/protocol.go:94-123 | between two calls nothing is lost and nothing repeated |
| Framing.AllLinesBounded | daemon/internal/protocol/protocol.go:94-123 | no line is longer than the cap and 16383 bytes |
| Framing.CapDecides | daemon/internal/protocol/protocol.go:94-123 | for every length and cut, a line comes out if and only if what was buffered before the read that brings its newline was within the cap |
| Framing.CutsAgreeIff | daemon/internal/protocol/protocol.go:94-123 | all cuts into reads of at most 16 KiB agree on a line if and only if it is within the cap, or longer than the cap and 16383 bytes |
| Framing.CapDependsOnChunks | daemon/internal/protocol/protocol.go:94-123 | two cuts of one line that do not |
| Framing.EndRunsLinesTogether | daemon/internal/protocol/protocol.go:108-121 | two lines that come with the end are yielded as one |
| Socks.Handshake.OnData | src/main/socks-agent.ts:132-157 | after every piece the machine stands where the whole stream so far puts it |
| Socks.Socks5Connect | src/main/socks-agent.ts:117-163 | outcome, bytes written and pieces left unread, with a socket that may err or close |
| Socks.JudgeMeans | src/main/socks-agent.ts:87-157 | the outcome by the server's bytes: opened exactly behind a choice of no authentication and a whole grant, refused exactly at another choice or an answer that is none, else waiting |
| Socks.EncodesIff | src/main/socks-agent.ts:60-85 | which targets can be asked for |
| Socks.ChunkingIndependent | src/main/socks-agent.ts:117-163 | the outcome is that of the whole stream, or the socket's end where that leaves it open, and what is pushed back is exactly the rest of it |
| Socks.RequestOnlyAfterNoAuth | src/main/socks-agent.ts:135-141 | the request is written only after a reply without authentication |
| Socks.ConnectRoundTrip | src/main/socks-agent.ts:68-85 | a server reads back the host and port (RFC 1928, section 4) |
| Wallets.Store.DedupeWalletEntries | src/main/settings.ts:412-468 | the index, files and active wallet after the merge |
| Wallets.MergeIsSound | src/main/settings.ts:397-411 | no two entries share an address, blank ones are kept, nothing is invented, every address keeps an entry |
| Wallets.SurvivorStays | src/main/settings.ts:403-407 | the survivor can be unlocked exactly when some entry of its address can |
| Wallets.SurvivorIsOldest | src/main/settings.ts:403-407 | the survivor is the oldest entry of its address that can be unlocked, or the oldest if none can |
| Wallets.OrderKept | src/main/settings.ts:434-448 | the entries that are kept keep their order |
| Wallets.ActiveStays | src/main/settings.ts:462-465 | an active id that named a wallet still names one with its address |
| Wallets.FilesFollowIndex | src/main/settings.ts:452-461 | a kept wallet's file stays, a dropped one's goes unless it cannot be deleted, and a file of no wallet is not touched |
| Economics.NetMeans | src/shared/provider-economics.ts:69-124 | a net price comes out exactly for whole prices and shares of one at most; it lies between nothing and the price and understates the true share by less than one udvpn |
| Economics.NetIsMonotone | src/shared/provider-economics.ts:121-124 | net grows with the price |
| Economics.BreakEvenIsLeastIff | src/shared/provider-economics.ts:126-164 | the count is the least number of subscribers whose revenue covers the burn, through every string, if and only if a JavaScript number holds that number |
| Economics.BreakEvenIsLeast | src/shared/provider-economics.ts:126-164 | so whenever the burn of the period is at most 2^53 times the net price |
| Economics.CountCanBeRounded | src/shared/provider-economics.ts:145-149 | a lease and a net price for which one subscriber too few is answered |
| Economics.BreakEvenElse | src/shared/provider-economics.ts:134-142 | when it answers that nothing burns or that the plan never pays |
| Economics.HourConserves | src/shared/provider-economics.ts:84-112 | an hour's burn is what the commitment loses in it |
| Economics.CommitmentIsFutureBurn | src/shared/provider-economics.ts:101-112 | over the life of all leases the burn adds up to what was committed |

## Left out

- Lifecycle.HaltDominatesIff: `disconnect()` is one step and does not throw, and a session is
  applied only by a handler that found no connection when it began; a bring-up succeeds or fails
  as the environment decides.
- Lifecycle.StepKeepsWellFormed: the one-way and usage watchdogs, toasts and timers' lengths are
  not modelled; the liveness monitor is a step that may happen at any time.
- ChainPurchase.EstablishChainOrRefund: a cancel either lands or does not; the timeout that ends
  a hanging one is not timed.
- ResolvConf.RecordIsOrigin: removals succeed, one write is atomic, another program changes
  `resolv.conf` only between calls, and a symlink's target is a file of its own and not one of
  the four entries.
- KillSwitch.ArmedSends: INPUT and FORWARD, and chains of other programs beyond a verdict for
  each rule, are not modelled; the local IPv6 ranges are matched but not written out as text.
- TunRoutes.DownUndoesUpIff: one route for each prefix (no metrics), octets are read as decimal
  even with leading zeros, and a delete of a route that is there succeeds.
- PolicyRules.CleanRestoresIff: priorities are an order, table names other than main are numbers,
  and addresses, MTU and DNS of the bring-up are steps that succeed or fail.
- AwgIni.AssertAmneziaWgConfig: error texts and line numbers; lower case of letters whose lower
  case is not ASCII, which no key or section contains.
- AwgUapi.ToUAPI: a peer section that repeats the key of an earlier one is a second peer, as in
  the text; the device merges the two. A key with carriage returns inside, which Go's base64 decoder
  skips, is refused by the model, as the guard refuses it before.
- AwgClientGuard.GuardsAgreeIff: files are sequences of characters, so bytes that are not UTF-8 are
  left out.
- AwgDirectives.ParseAwgDirectives: a signed MTU, which the guard does not admit.
- AwgBuilt.JunkMeans: a draw is a real number from 0 up to 1.
- AwgBuilder.BuildAmneziaWgConfig: values of the wrong JavaScript type, but for numbers that are
  not integers; an absent string is empty.
- V2RayConfig.RoutingKeptIff: a rule's other conditions are one opaque condition, and items of a
  config that are not objects are not represented; a balancer is the set of outbounds it may pick.
- Multihop.SelectionMeans: normalising a pin and decoding Reality keys are results that come in.
- RpcMonitor.TwoSamples: probing, latency and the feed are the verdict that an event carries; the
  selection that a fault starts is counted, and its effect is a change of endpoint.
- Socks.ConnectRoundTrip: UTF-8 encoding is a parameter.
- Wallets.MergeIsSound: for an index whose ids are distinct, as they are created.
- Economics.BreakEvenIsLeastIff: counts from 2^1024 on, which a JavaScript number answers with
  infinity.
- Ranking of plan candidates, the OpenVPN guard and the plain WireGuard bring-up: straight-line
  checks and a library sort, which would only add easy members.
- Windows, tray, IPC registration, the chain SDK, TLS, cryptography, key derivation and wording.
