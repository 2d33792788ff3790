# conduitvpn: a verified model

conduitvpn keeps one openvpn tunnel to a public relay alive and lets applications dial through it.
This project models the parts of it in which state, order and concurrency matter, in Dafny, and
proves what they guarantee. `dafny verify dfyconfig.toml` checks everything.

| part | modules |
|---|---|
| supervisor and its callers | `Supervisor`, `SupervisorSafety`, `SupervisorTrace`, `SupervisorHistory`, `SupervisorRefresh`, `SupervisorCode`, `CallerCode`, `Monitor`, `Route` |
| egress policy, tunnel, supervisor with its tunnels | `Egress`, `TunnelMachine`, `Tunnel`, `TunnelCode`, `SupervisorTunnel`, `SupervisorStop` |
| blacklist and its validation job | `Blacklist`, `BlacklistCode` |
| OpenVPN profile validator | `Text`, `Profile`, `ProfileRoundTrip`, `ProfileSize`, `ProfileRules`, `RemoteExpr`, `RemoteShadow` |
| SOCKS5 client and server | `Socks`, `SocksWire`, `SocksCode`, `SocksPair` |
| state store | `Pbkdf2`, `Base64`, `Auth`, `AtomicWrite` |
| session table, benchmark pool | `Sessions`, `Benchmark` |
| shared | `Common` |

## How it is built

Concurrent parts are state machines. A step is one section under a mutex, one channel operation,
one system call or one `ip` command; a `Do` (or `Next`, `Apply`) function gives the next state and
`Enabled` says when the step is possible. A schedule is a list of steps, and the theorems are about
every schedule. Outcomes of everything outside the program (handshakes, probes, exit codes, saves,
what other callers do) are carried by the steps and left open.

Code that changes fields step by step is also written that way: classes whose methods assign the
fields and are proved to be a stretch of a schedule of the machine (`TunnelCode.Tunnel`,
`BlacklistCode.Manager`, `SupervisorCode.Manager`, `CallerCode.Shared`), or are proved against a
function of the inputs (`Egress.Controller`, `Auth.Store`, `AtomicWrite.Disk`, `Sessions.Table`, the
SOCKS5 methods over `SocksCode.Conn` and `SocksCode.Reader`). In the first kind, every method lets
arbitrary others run between any two of its own atomic steps. The supervisor's methods assign the
fields and branch on the errors they get back; the program counter of the protocol is ghost, and each
section is accepted only if the protocol's step does the same to every field.

`Supervisor` treats an openvpn process as something that may report, shake hands and die at any
moment; `SupervisorTunnel` replaces each of them by a run of the tunnel protocol, so that what the
supervisor relies on are lines that were scanned.

Where the code and its specification share a definition (a table of permitted names, a step function, a
key, the phrases of a log line), a separate law says in literal values what that definition amounts to.

The supervisor is modelled in host mode and without cancellation. The kernel is what this program
installed and did not remove: policy rules and one default route per table. Its two rule identifiers
are taken as reserved for it, as `internal/egress/egress_linux.go:21-22` says.

## What differs from the program's own text

- The comment at `internal/manager/manager.go:321-322` says the fixed node is never blacklisted. It
  is: `SupervisorTrace.FixedNodeIsBlacklisted` gives the run, and with nothing restored any node is on
  the list after its turn exactly if it was there before or its attempt failed
  (`SupervisorTrace.BlacklistedExactly`). What holds is that the fixed node is never skipped
  (`SupervisorTrace.FixedNodeIsNeverSkipped`).
- The comment at `internal/manager/manager.go:227` says Run blocks until its context is cancelled. A
  refresh request can make it return too: a pause ends Run exactly if it takes the request's token
  (`SupervisorRefresh.StepEndsRun`), and it can exactly if one is there
  (`SupervisorRefresh.PauseCanEndRun`). Nothing else takes the token, so a request made while a tunnel
  is up waits for the pause behind the loss of that tunnel, however much later
  (`SupervisorRefresh.RequestWhileConnectedEndsRun`).
- A node name given together with another mode is kept and still exempts that node
  (`Route.NodeNameOutlivesFixedMode`); a country list of commas and blanks is accepted and selects
  nothing (`Route.CommaIsAcceptedAndSelectsNothing`).
- A profile of exactly the size limit can be accepted once and refused when the stored text is
  validated again (`ProfileSize.LimitProfileFailsSecondTime`); one byte less and it cannot
  (`ProfileSize.BelowLimitRevalidates`).
- An accepted text may still hold "\r\n" and then changes once more when it is validated again
  (`ProfileSize.CarriageReturnSurvives`).
- `parseRemote` does not know about inline blocks: a line inside one that matches its expression in
  place shadows every directive behind it. The endpoint is that of the first remote directive with a
  decimal port exactly if no such line in front of it names another one
  (`RemoteShadow.FirstRemoteUnlessShadowed`, `RemoteShadow.BlockLineShadowsDirective`).
- `writeJSON` can report a failure although the new file is in place: exactly when the last chmod
  fails (`AtomicWrite.FailedButInstalled`, `AtomicWrite.InstalledCanFail`). A temporary file stays
  exactly when its removal fails (`AtomicWrite.OnlyFailedRemovalLeavesTemp`, `AtomicWrite.TempCanBeLeft`).
- The exit of openvpn can be lost to whoever waits for it, when 128 unread lines fill the queue
  (`TunnelMachine.ExitCanBeLost`), and it is lost exactly then (`TunnelMachine.ExitIsLostExactly`). The handshake cannot (`TunnelMachine.TokenMeansHandshake`).
- A restored node that fails again is restored again without a new validation, exactly if it passed
  the latest one (`Blacklist.StaleResultRestoresAgain`, `Blacklist.RestoredTwiceAfterOneTest`).

## Model

| member | source | states |
|---|---|---|
| `SupervisorSafety.FailsClosed` | internal/egress/egress.go:39-70 | in every reachable state that lets dials through, rule and route are installed and lead only to the recorded device, which the tunnel the supervisor holds has reported and whose handshake has completed |
| `SupervisorSafety.OneServingProcess` | internal/manager/manager.go:353-412 | at most one serving process runs, it is the one the supervisor points to, and outside an attempt none runs and egress is shut |
| `SupervisorSafety.NothingIsLeftBehind` | internal/egress/egress_linux.go:20-39 | starting with at most one serving rule and any serving route, as an ungraceful exit leaves them, and as long as no cleanup command fails to remove something (one refused because there is nothing to remove does no harm; all other commands may fail): never more than one rule, neither rule nor route when a tunnel is reaped, and none outside attempts from the first one on |
| `SupervisorSafety.StopCleansExactly` | internal/manager/manager.go:406-412 | a stopTunnel that finds at most one rule reaps its process on a clean kernel iff neither of its two cleanup commands fails to remove something |
| `SupervisorSafety.NoRouteChangeIsLost` | internal/manager/manager.go:850-871 | while connectLoop works under a configuration other than the current one, a wake-up is in the channel, about to be sent by one of any number of setters, or being obeyed |
| `SupervisorHistory.LastSetIsHeard` | internal/manager/manager.go:850-871 | while connectLoop works under another configuration than the one last passed to SetRouteConfig, as the schedule alone tells both, a wake-up is in the channel, about to be sent or being obeyed |
| `SupervisorHistory.RouteIsLastSet` | internal/manager/manager.go:850-852 | in every schedule the configuration is the one last set, and the candidates are what the one at the latest choice selects from the pool last fetched before it |
| `SupervisorHistory.BlacklistIsToldBySchedule` | internal/manager/manager.go:759-770 | in every schedule the blacklist holds exactly the hosts there at the start or marked, and not restored since |
| `SupervisorHistory.AttemptsGoInOrder` | internal/manager/manager.go:353-404 | in every schedule each point of an attempt has behind it, since the process was spawned, the reported handshake, the interface found, egress opened and a healthy probe, as far as that point requires |
| `SupervisorSafety.VerificationIsInvisible` | internal/egress/egress_linux.go:81-104 | any command of a verification tunnel, with any outcome, leaves the serving rule, table, controller and everything else as they were |
| `SupervisorSafety.ServingIsInvisible` | internal/egress/egress_linux.go:20-39 | no other step changes the rule, the table or the devices verification traffic meets |
| `SupervisorSafety.SafeStep` | internal/manager/manager.go:323-457 | every step of anyone keeps the safety invariant (processes, controller, kernel, device under installation) |
| `SupervisorSafety.WakeStep` | internal/manager/manager.go:850-871 | every step keeps the accounting of configuration writes, wake-ups and mode exits |
| `SupervisorTrace.ExhaustedTrace` | internal/manager/manager.go:323-349 | at exhaustion every candidate had its turn in order, was attempted iff not blacklisted at its turn or fixed, every attempted one was blacklisted, and every candidate is blacklisted unless restored since |
| `SupervisorTrace.ModeExitTrace` | internal/manager/manager.go:336-342 | after a mode change all attempted nodes but the last were blacklisted, and the last is so only if it already was at its turn |
| `SupervisorTrace.FailedNodesAreBlacklisted` | internal/manager/manager.go:331-346 | before the next turn every failed or skipped node is on the blacklist unless restored since |
| `SupervisorTrace.FixedNodeIsNeverSkipped` | internal/manager/manager.go:328-330 | under an unchanged fixed route no turn skips its node, however often it was blacklisted |
| `SupervisorTrace.FixedNodeIsBlacklisted` | internal/manager/manager.go:321-334 | a run in which the fixed node is blacklisted, against the comment |
| `SupervisorTrace.BlacklistedExactly` | internal/manager/manager.go:323-349 | with nothing restored since connectLoop began, a candidate whose turn is over is blacklisted iff it was at its turn or its attempt failed, fixed or not |
| `SupervisorTrace.AttemptsAreBounded` | internal/manager/manager.go:228-285 | with hosts from a finite set, no node named and nothing restored, attempts are at most the hosts not blacklisted at the start plus the mode exits, and those at most the SetRouteConfig calls |
| `SupervisorTrace.LoopStep` | internal/manager/manager.go:323-349 | every step keeps the agreement of turns, blacklist and program counter |
| `SupervisorRefresh.ReturnsStemFromTriggers` | internal/manager/manager.go:178-189 | Run has returned only if TriggerFetch was called; tokens waiting, being sent and taken are at most the calls, and at most the cycles of Run plus one |
| `SupervisorRefresh.StepEndsRun` | internal/manager/manager.go:874-885 | a step ends Run iff it is a pause's and takes the token out of the channel |
| `SupervisorRefresh.PauseCanEndRun` | internal/manager/manager.go:874-885 | a pause can end Run iff a token is in the channel |
| `SupervisorRefresh.TokenOutlivesEverything` | internal/manager/manager.go:250-285 | a token stays until Run ends: neither a new cycle, nor the flag, nor a connected tunnel takes it |
| `SupervisorRefresh.RequestWhileConnectedEndsRun` | internal/manager/manager.go:178-189 | a run from the start in which the only request is made while a tunnel is watched and ends Run after that tunnel is lost |
| `SupervisorRefresh.RefreshStep` | internal/manager/manager.go:178-189 | every step keeps the accounting of flag, rings and tokens |
| `SupervisorHistory.FlagMeansRequested` | internal/manager/manager.go:250-250 | in every schedule the request flag is up iff a refresh was requested since Run last began a cycle |
| `SupervisorCode.Manager.ConnectLoop` | internal/manager/manager.go:323-349 | the loop as written, branching on the errors of its calls, with others at work between its steps, is a stretch of a schedule and ends as the two trace theorems say, shut and without a process, or still watching a fail-closed tunnel |
| `SupervisorCode.Manager.Supervise` | internal/manager/manager.go:247-285 | the loop of Run over any number of cycles leaves off watching a fail-closed tunnel, or shut and without a process, and has returned only if TriggerFetch was called |
| `SupervisorCode.Manager.ConnectAndVerify` | internal/manager/manager.go:353-404 | success leaves the tunnel watched and egress open and fail-closed, failure leaves egress shut and no process alive |
| `SupervisorCode.Manager.ProbeTunnel` | internal/manager/manager.go:383-403 | the tunnel is kept iff one of the first InitialProbeTries probes is healthy |
| `SupervisorCode.Manager.StopTunnel` | internal/manager/manager.go:406-412 | afterwards dials are shut out, no process lives, and control is where the reason for stopping leads |
| `SupervisorCode.Manager.SetupHostRoute` | internal/egress/egress_linux.go:20-33 | with others in between: succeeds iff the route and the rule command do, then both are installed; a refused route adds no rule, a refused rule leaves no route if the last cleanup command succeeds |
| `SupervisorCode.Manager.Watch` | internal/manager/manager.go:418-457 | the liveness loop with its local counter ends at the first delivered round that is final or completes a failing suffix at the limit, for that round's reason, and leads to stopTunnel with it |
| `SupervisorCode.Manager.Skips` | internal/manager/manager.go:328-330 | the test reads the blacklist and, only if that says so, the route, with others in between; the protocol follows the answer |
| `CallerCode.Shared.SetRouteConfig` | internal/manager/manager.go:834-872 | refused input does nothing; an accepted call writes its configuration, which stays unless another setter writes meanwhile, and leaves a wake-up in the channel; whatever others do between write and send, at no moment does the loop work under another configuration without a wake-up waiting, coming or being obeyed |
| `CallerCode.Shared.TriggerFetch` | internal/manager/manager.go:178-189 | it rings iff no refresh was requested before in this cycle of Run, and then leaves a token in the channel, whatever happens between swap and send |
| `SupervisorTunnel.OpenMeansScanned` | internal/egress/egress.go:39-70 | whenever dials pass, marked traffic leaves by one device only, a plain interface name that a scanned line of the held tunnel reported, and a scanned line of that tunnel says "initialization sequence completed" |
| `SupervisorTunnel.GuardIsNoAssumption` | internal/manager/manager.go:364-371 | the supervisor's part of every joint schedule is a schedule of its protocol, and whenever WaitHandshake can return nil the protocol allows it |
| `SupervisorTunnel.NoStrayProcess` | internal/manager/manager.go:406-412 | of all tunnels ever started only the latest can have a running process, and only during an attempt |
| `SupervisorTunnel.HaltInv` | internal/tunnel/tunnel.go:206-226 | when Stop returns the process has ended, and the joint invariant is kept |
| `SupervisorStop.StopCanFinish` | internal/manager/manager.go:406-412 | from every reachable joint state within stopTunnel at most nine further moves, all of stopTunnel or of the tunnel it stops, complete it, and then no process lives |
| `SupervisorStop.NobodyDelaysStop` | internal/tunnel/tunnel.go:206-226 | no move of anyone takes a reachable stopTunnel further from its end, and only the return of Stop takes it out |
| `Monitor.Watch` | internal/manager/manager.go:418-457 | it stops at the first final round or the first probe completing a failing suffix of max(1, HealthMaxFails), for that reason, and never without one |
| `Monitor.CounterIsFailingSuffix` | internal/manager/manager.go:441-453 | the counter is the length of the failing suffix of the probe history, and degradation is reported exactly when that suffix reaches the limit |
| `Monitor.FailingSuffixIsMaximal` | internal/manager/manager.go:441-453 | the suffix is the block of failures at the end that no failure precedes |
| `Monitor.IdleRoundsDoNotMatter` | internal/manager/manager.go:434-456 | log events and latency measurements leave the probe history as it is |
| `Route.CountriesExact` | internal/manager/manager.go:788-803 | a country route keeps exactly the nodes of the wanted countries, in order |
| `Route.WantedMeansListed` | internal/manager/manager.go:788-799 | a code is wanted iff it is not empty and some part between commas, trimmed and in capitals, is it |
| `Route.AutoSelectsAll` | internal/manager/manager.go:785-813 | an automatic route selects every node, in order |
| `Route.FixedExact` | internal/manager/manager.go:804-810 | a fixed route selects the first node of that name or address, and nothing if there is none |
| `Route.SelectCandidates` | internal/manager/manager.go:785-813 | the loops compute that selection |
| `Route.AcceptedFixedLocks` | internal/manager/manager.go:834-848 | whatever SetRouteConfig accepts has the mode, country and node given, in lower case, capitals and trimmed, and a known mode; in fixed mode it selects at most one node, which counts as fixed |
| `Route.NodeNameOutlivesFixedMode` | internal/manager/manager.go:816-819 | a node is exempt iff it bears the accepted name, in every mode; a blank name exempts none |
| `Route.CountryRouteCanSelect` | internal/manager/manager.go:788-803 | a country route can select something iff its list names a code |
| `Route.CommaIsAcceptedAndSelectsNothing` | internal/manager/manager.go:843-845 | the list "," is accepted and names none |
| `Egress.NoInterference` | internal/egress/egress_linux.go:11-18 | a command for one of the two rules is invisible to the other, whatever its outcome |
| `Egress.MarkLeadsToDevice` | internal/egress/egress_linux.go:41-46 | with its rule and route installed, marked traffic can leave by that device only |
| `Egress.Controller.Configure` | internal/egress/egress.go:39-57 | opens exactly if the device is named, exists and both commands succeed; if it was shut, no moment on the way lets a dial through |
| `Egress.Controller.Clear` | internal/egress/egress.go:61-70 | shut before the kernel is touched, so no moment on the way lets a dial through |
| `Egress.Controller.Control` | internal/egress/egress.go:86-97 | host dials are refused while shut, and while open marked so that they leave by the recorded device |
| `Egress.Controller.SetupHostRoute` | internal/egress/egress_linux.go:20-33 | succeeds exactly if both commands do; a refused route adds no rule; after a refused rule no rule that was not there before and no route in its table is left, as far as the two cleanup commands succeed |
| `Egress.Controller.ClearHostRoute` | internal/egress/egress_linux.go:35-39 | one serving rule is removed and the table emptied as far as each command succeeds, and nothing else changes |
| `Egress.Controller.SetupDeviceRoute` | internal/egress/egress_linux.go:81-95 | installs the verification route exactly if both commands succeed, undoes a refused rule as far as the cleanup commands succeed, and keeps serving fail-closed throughout |
| `Egress.Controller.ClearDeviceRoute` | internal/egress/egress_linux.go:97-104 | confined to the verification rule, whatever fails |
| `TunnelMachine.TokenMeansHandshake` | internal/tunnel/tunnel.go:307-321 | the slot holds a token iff a handshake was signalled since the last take, however full the queue; signals stem from distinct handshake lines and successful waits from distinct signals |
| `TunnelMachine.QueueIsLossyFifo` | internal/tunnel/tunnel.go:307-321 | accepted events are delivered in order and once; one is dropped only at 128 undelivered |
| `TunnelMachine.StopWaitsForTheReaper` | internal/tunnel/tunnel.go:206-226 | the exit channel closes at most once, after the exit was announced; Stop of a started tunnel has not returned before, and the exit is called a stop only after Stop |
| `TunnelMachine.ReaperNeverBlocks` | internal/tunnel/tunnel.go:324-335 | once the process has ended nothing delays the closing of the channel, and then Stop can return |
| `TunnelMachine.ExitCanBeLost` | internal/tunnel/tunnel.go:317-320 | a run in which the exit event is dropped for good |
| `TunnelMachine.ExitIsLostExactly` | internal/tunnel/tunnel.go:307-335 | in every schedule the exit being reported is dropped iff 128 accepted events are undelivered at that moment, and is queued otherwise |
| `TunnelMachine.ReportsAreLatest` | internal/tunnel/tunnel.go:324-335 | in every schedule the device is that of the latest line reporting one, and the exit message is "openvpn stopped" or begins "openvpn exited: " as Stop had been called or not |
| `TunnelMachine.WaitEndsExactly` | internal/tunnel/tunnel.go:189-199 | a waiter that takes an event goes on iff it is a log or handshake line, and else returns that event |
| `TunnelMachine.StepKeepsInv` | internal/tunnel/tunnel.go:178-335 | every step of scanners, reaper, waiter and owner keeps the protocol invariant |
| `Tunnel.NilOnlyAfterHandshake` | internal/tunnel/tunnel.go:178-189 | WaitHandshake returns nil only after a line saying "initialization sequence completed", in whatever letter case, was scanned |
| `Tunnel.ErrorsAreGenuine` | internal/tunnel/tunnel.go:189-199 | a classified error carries a scanned line that says one of the phrases of its class and none of a class before it, or the message of the exit |
| `Tunnel.DeviceIsReported` | internal/tunnel/tunnel.go:269-296 | the device is the one the latest such scanned line reported, a plain interface name |
| `Tunnel.TagIsNeutral` | internal/tunnel/tunnel.go:238-267 | the tag put before a line never changes its class |
| `Tunnel.ClassMeansPhrase` | internal/tunnel/tunnel.go:249-267 | a line is of a class iff it says one of the literal phrases of that class, in any mix of letter cases, and none of a class before it |
| `Tunnel.ContextNeverHides` | internal/tunnel/tunnel.go:249-267 | in any mix of letter cases, more text around a line never makes it less decisive |
| `Tunnel.TunnelDeviceShape` | internal/tunnel/tunnel.go:282-296 | device names are tun or utun followed by digits, and nothing else |
| `Tunnel.FirstDeviceFound` | internal/tunnel/tunnel.go:269-280 | the first field that names a device is the one reported |
| `Tunnel.DecoratedDevice` | internal/tunnel/tunnel.go:269-280 | a name among brackets, parentheses and punctuation, with or without its path, is reported bare |
| `Tunnel.DeviceNamesItself` | internal/tunnel/tunnel.go:269-280 | a bare device name is reported as it stands |
| `TunnelCode.Tunnel.WaitHandshakeContext` | internal/tunnel/tunnel.go:178-202 | the select loop, under any interference and any choice among ready cases, returns nil only if a scanned line says "initialization sequence completed", and a classified error with a scanned line that says so |
| `TunnelCode.Tunnel.Stop` | internal/tunnel/tunnel.go:206-226 | a tunnel never started returns at once, any other only after the reaper closed the channel once |
| `TunnelCode.Tunnel.WaitProcess` | internal/tunnel/tunnel.go:324-335 | under any interference the reaper announces the exit and closes the channel exactly once |
| `TunnelCode.Tunnel.ScanLine` | internal/tunnel/tunnel.go:238-267 | every line read enters the protocol with its own device and the class its phrases give it, whatever happens between its sends |
| `TunnelCode.Tunnel.CaptureDevice` | internal/tunnel/tunnel.go:269-280 | the loop finds the device the line reports |
| `Blacklist.OneJobAtATime` | internal/manager/manager.go:527-531 | in any run at most one job is alive, and the status says so |
| `Blacklist.StatusShowsLatestJob` | internal/manager/manager.go:555-597 | the status is a finished prefix of length Completed with the verdicts given, at most one running entry, then pending ones, over the sorted hosts blacklisted at the start; complete when it is over |
| `Blacklist.NoMarkIsLost` | internal/manager/manager.go:608-640 | in any run a host is blacklisted iff its latest mark was not followed by a restore of it |
| `Blacklist.RestoreIsExact` | internal/manager/manager.go:611-640 | a successful restore removes exactly the hosts that passed the latest job and are still listed, keeps the rest, and old size = new size + restored |
| `Blacklist.DiskFollowsMemory` | internal/manager/manager.go:759-770 | as long as every save succeeds the file holds what memory holds |
| `Blacklist.OneSaveRecovers` | internal/manager/manager.go:759-770 | in every run, however many saves failed: once a change was saved and no later save fails, the file holds what memory holds |
| `Blacklist.JobEnds` | internal/manager/manager.go:555-585 | a live job can always go on, and going on brings it to its end |
| `Blacklist.OthersDoNotDelay` | internal/manager/manager.go:555-585 | no step of anyone takes a job further from its end |
| `Blacklist.ListingIsUnique` | internal/manager/manager.go:532-536 | sorting the hosts determines the order of the results |
| `Blacklist.StaleResultRestoresAgain` | internal/manager/manager.go:622-630 | in every run with no job alive, a host marked anew is taken out by the next restore iff it passed the latest job |
| `Blacklist.RestoredTwiceAfterOneTest` | internal/manager/manager.go:611-640 | a run with one job in which the same host is restored, marked and restored again |
| `BlacklistCode.Manager.RunBlacklistTest` | internal/manager/manager.go:555-585 | whatever others do meanwhile, the job ends with every listed host showing its own verdict |
| `BlacklistCode.Manager.StartBlacklistTest` | internal/manager/manager.go:513-553 | refused exactly while a job runs; otherwise it starts over the sorted hosts |
| `BlacklistCode.Manager.RestoreAvailableBlacklist` | internal/manager/manager.go:611-640 | is the atomic restore step, counts what it removed, and fails exactly while a job runs or its save fails |
| `BlacklistCode.Manager.MarkBlacklisted` | internal/manager/manager.go:759-770 | is the atomic mark step |
| `BlacklistCode.Manager.IsBlacklisted` | internal/manager/manager.go:752-757 | answers what the history of marks and restores says |
| `Profile.ValidateOpenVPNProfile` | internal/vpngate/parse.go:90-149 | accepts exactly the profiles within the limit, for a public IPv4, that parse into permitted directives and closed permitted blocks with a remote; and returns their printing |
| `Profile.ValidateDirective` | internal/vpngate/parse.go:151-226 | accepts exactly the permitted directives, and reports a remote iff one was seen |
| `ProfileRules.AcceptedUsesKnownNames` | internal/vpngate/parse.go:90-149 | every directive of an accepted profile has one of 30 literal names, every block one of five, some directive is a remote, and the size is 1 to 1048576 bytes |
| `ProfileRules.RemoteDirectives` | internal/vpngate/parse.go:174-185 | a remote is permitted iff it names the node's own address, which is public, a number 1 to 65535, and at most one of five protocols |
| `ProfileRules.BareDirectives` | internal/vpngate/parse.go:154-160 | the seven directives without arguments |
| `ProfileRules.DeviceDirectives` | internal/vpngate/parse.go:162-169 | dev and dev-type take "tun" only |
| `ProfileRules.ProtoDirective` | internal/vpngate/parse.go:170-173 | proto takes one of five protocols |
| `ProfileRules.ResolvRetryDirective` | internal/vpngate/parse.go:186-189 | resolv-retry takes "infinite" or a number 1 to 2147483647 |
| `ProfileRules.CertificateDirective` | internal/vpngate/parse.go:190-193 | remote-cert-tls takes "server" only |
| `ProfileRules.CipherDirectives` | internal/vpngate/parse.go:194-197 | the six cipher directives take one word over the letters, digits and nine marks listed |
| `ProfileRules.CompressionDirectives` | internal/vpngate/parse.go:198-205 | comp-lzo and compress take the words listed, comp-lzo also none |
| `ProfileRules.TlsDirectives` | internal/vpngate/parse.go:206-213 | key-direction takes 0 or 1, tls-version-min 1.2 or 1.3 |
| `ProfileRules.VerbDirective` | internal/vpngate/parse.go:214-217 | verb takes a number 0 to 6 |
| `ProfileRules.NumericDirectives` | internal/vpngate/parse.go:218-221 | the six numeric directives take a number 1 to 2147483647 |
| `ProfileRules.PublicMeansRanges` | internal/vpngate/parse.go:235-242 | an address is public iff its 32-bit value lies outside nine literal ranges |
| `ProfileRules.AtoiMeansSpelled` | internal/vpngate/parse.go:228-233 | a text is read as a number iff it is digits with an optional sign spelling it, and it fits 64 bits |
| `ProfileRules.CommentsVanish` | internal/vpngate/parse.go:115-117 | blank lines and lines beginning with # or ; do not change what is parsed |
| `Text.TrimSpaceCuts` | internal/vpngate/parse.go:102-102 | what TrimSpace cuts off on either side is white space only |
| `Text.FieldsInOrder` | internal/vpngate/parse.go:133-133 | the fields are the runs of other characters between white space, in order |
| `ProfileRoundTrip.ParseOfPrinted` | internal/vpngate/parse.go:97-149 | parsing what was printed gives the items back |
| `ProfileRoundTrip.PrintParseInverse` | internal/vpngate/parse.go:97-149 | the same through line splitting and CRLF replacement, on text without CRLF |
| `ProfileRoundTrip.PrintedIsAccepted` | internal/vpngate/parse.go:90-149 | permitted items that fit the limit print to an accepted text that is handed on unchanged |
| `ProfileRoundTrip.Revalidation` | internal/manager/manager.go:482-486 | what was accepted is accepted again iff it still fits the limit, and is then unchanged iff it holds no CRLF |
| `ProfileSize.NormalSize` | internal/vpngate/parse.go:90-149 | the returned text is at most one byte longer than the profile |
| `ProfileSize.BelowLimitRevalidates` | internal/manager/manager.go:482-486 | a profile below the limit is always accepted again |
| `ProfileSize.LimitProfileFailsSecondTime` | internal/vpngate/parse.go:91-93 | one at the limit that is not |
| `ProfileSize.CarriageReturnSurvives` | internal/vpngate/parse.go:97-149 | an accepted profile whose validated text holds CRLF and changes when validated again |
| `ProfileSize.ParseRows` | internal/vpngate/parse.go:37-82 | the row loop keeps exactly the acceptable rows, each of which can be validated again iff it fits the limit |
| `RemoteShadow.ParseRemoteOfNormal` | internal/vpngate/parse.go:286-299 | on every accepted text the endpoint is that of the first block line that matches in place or remote with a decimal port, in text order, and the fallback iff there is neither |
| `RemoteShadow.FirstRemoteUnlessShadowed` | internal/vpngate/parse.go:286-299 | the endpoint is that of the first remote directive with a decimal port, or the fallback without one, iff no block line in front of it matches or the first that does names the same |
| `RemoteShadow.UnshadowedByLook` | internal/vpngate/parse.go:286-299 | on an accepted profile without block lines starting with "remote" the endpoint is that of the first remote with a decimal port, or the fallback |
| `RemoteShadow.ShadowWins` | internal/vpngate/parse.go:286-299 | a matching block line in front of the first such directive decides the endpoint, in any block and at any place |
| `RemoteShadow.DigitPortsNeverFallBack` | internal/vpngate/parse.go:286-299 | with decimal ports only and no shadowing line, it is the first remote of the profile |
| `RemoteShadow.BlockLineShadowsDirective` | internal/vpngate/parse.go:286-299 | accepted profiles where that happens, for every host, port and directive |
| `RemoteShadow.MatchIsLocal` | internal/vpngate/parse.go:286-291 | whether and what the expression matches inside a block is decided there, whatever follows the closing tag |
| `RemoteExpr.SpelledMatches` | internal/vpngate/parse.go:20-20 | text spelling "remote", space, host, space, digits matches, with that host and port and the protocol that follows |
| `RemoteExpr.MatchIsSpelled` | internal/vpngate/parse.go:20-20 | whatever matches is spelled so |
| `RemoteExpr.ProtoMeansFollows` | internal/vpngate/parse.go:20-20 | the protocol is udp or tcp iff that word follows after white space, and empty otherwise |
| `RemoteExpr.LeftmostMatch` | internal/vpngate/parse.go:286-291 | the match found is the one at the first line start that has one |
| `SocksPair.Agreement` | internal/vpngate/upstream.go:77-200 | in every complete run the client succeeds iff method, credentials, lengths and dial allow it, the server then relays to the requested address and port, every request byte is consumed and the banner arrives whole |
| `SocksPair.OnlyTheRequestedAddressIsDialled` | internal/proxy/socks5.go:47-84 | in every run nothing but the requested address is dialled, only when authorised, and relaying starts with empty queues |
| `SocksPair.NoDeadlock` | internal/proxy/socks5.go:16-85 | as long as the handshake is not over some move is possible |
| `SocksPair.MovesDecreaseMeasure` | internal/proxy/socks5.go:16-85 | every move, of either end and in every fragmentation, decreases a measure |
| `SocksPair.RunsEnd` | internal/proxy/socks5.go:16-85 | every run is at most as long as a bound that the banner's length alone decides |
| `SocksPair.Converse` | internal/vpngate/upstream.go:77-179 | under any scheduler the two ends reach the final state, connected iff the exchange should succeed, with the requested address dialled once and the banner whole |
| `SocksPair.MoveKeepsInv` | internal/proxy/socks5.go:16-155 | every move, in every fragmentation, keeps client and server in matching phases |
| `SocksWire.ClientMeetsAnyServer` | internal/vpngate/upstream.go:77-179 | against any server the client connects iff the stream begins with a method it offered, acceptance of its credentials where asked, and a successful reply with an address of any of the three types; it has then written offer, credentials if asked and request, and leaves exactly what follows the reply |
| `SocksWire.AnswerConnects` | internal/vpngate/upstream.go:77-179 | every such answer in front of any payload connects it and leaves the payload |
| `SocksWire.ServerMeetsAnyClient` | internal/proxy/socks5.go:16-155 | for any stream: relay to the requested address and port after the method, credentials and request it must carry and a successful dial, with the exact bytes written and left unread; the exact refusal for no method, wrong credentials, other commands, other address types, a failed dial and a stream that ends early; other first bytes are handed on untouched |
| `SocksCode.Socks5Connect` | internal/vpngate/upstream.go:77-179 | the client as written, over fragmented reads, connects iff the stream begins with an answer of any conforming server, has then written exactly what it must and leaves exactly what follows the reply |
| `SocksCode.HandleSocks5` | internal/proxy/socks5.go:16-85 | the server as written, over a buffered reader, serves any stream as ServerMeetsAnyClient says |
| `SocksCode.Reader.ReadFull` | internal/proxy/socks5.go:118-145 | full reads over any fragmentation consume exactly the bytes asked for, or all there are |
| `Pbkdf2.Pbkdf2Sha256` | internal/state/store.go:358-380 | the in-place loops compute PBKDF2 of RFC 8018, section 5.2, for every length it allows, and blocks of a wrapping counter beyond |
| `Pbkdf2.DeriveBlock` | internal/state/store.go:362-377 | one block is the exclusive or of all iterations |
| `Pbkdf2.Int4OfDigits` | internal/state/store.go:363-366 | the block number is encoded as its four digits to the base 256, modulo 2^32, most significant first |
| `Pbkdf2.ShorterKeyIsPrefix` | internal/state/store.go:358-380 | a shorter key is a prefix of a longer one |
| `Base64.DecodeOfEncode` | internal/state/store.go:227-249 | unpadded base64 (RFC 4648, section 4) round-trips |
| `Base64.AlphabetByNumber` | internal/state/store.go:232-245 | the letters are those of RFC 4648, table 1, in order |
| `Base64.EncodedTriple` | internal/state/store.go:232-245 | three octets become the four letters whose numbers spell the same 24-bit number |
| `Base64.EncodeByGroups` | internal/state/store.go:232-245 | groups of three octets are encoded one by one |
| `Base64.LastGroup` | internal/state/store.go:232-245 | a shorter last group is encoded as if filled with zeros, without the surplus letters |
| `Auth.StoredKeyVerifies` | internal/state/store.go:227-249 | a stored key verifies exactly the passwords whose bytes derive it by PBKDF2 with the stored salt, 600000 iterations and 32 bytes |
| `Auth.VerifiedMeansDerived` | internal/state/store.go:227-237 | a password is verified iff the record is complete and its hash decodes to the key the password's bytes derive under its salt |
| `Auth.PasswordsAreToldApart` | internal/state/store.go:227-249 | for passwords of different bytes there is a pseudo-random function under which a record that verifies one refuses the other |
| `Auth.Store.SetPassword` | internal/state/store.go:239-249 | the record verifies the password set, keeps name and path, and holds no plaintext |
| `Auth.Store.EnsureAuthConfigured` | internal/state/store.go:178-211 | after success no plaintext, an earlier path kept, and the configured, else the legacy, else exactly the earlier passwords accepted; without environment failures it succeeds iff the input is configurable |
| `AtomicWrite.TargetsAreWhole` | internal/state/store.go:313-346 | at every crash point of every run each target holds its earlier value or the whole data of a writer that renamed onto it, and never disappears |
| `AtomicWrite.ReturnsAreHonest` | internal/state/store.go:313-346 | success means installed; a temporary file remains iff the return is marked unclean |
| `AtomicWrite.OnlyFailedRemovalLeavesTemp` | internal/state/store.go:322-326 | a call ends with its temporary file present iff the removal failed |
| `AtomicWrite.TempCanBeLeft` | internal/state/store.go:322-326 | whatever is on disk, some run ends with the temporary file of a failed call left behind |
| `AtomicWrite.FailedButInstalled` | internal/state/store.go:313-346 | a failure is reported for an installed value iff it is the last chmod that failed |
| `AtomicWrite.InstalledCanFail` | internal/state/store.go:313-346 | whatever is on disk, some run returns failure with exactly the new value installed |
| `AtomicWrite.NeverStuck` | internal/state/store.go:313-346 | a writer that has not returned can take its next step |
| `AtomicWrite.WriteJSON` | internal/state/store.go:313-346 | the calls in order are a run of the model, and success leaves the whole value and no temporary file |
| `Sessions.Table.IsAuthorized` | internal/webui/webui.go:254-267 | a token is authorised iff at the second clock reading its latest login is less than 12 hours old and no logout followed; that reading is taken outside the lock, so requests may overlap |
| `Sessions.Table.Login` | internal/webui/webui.go:305-311 | a correct login is refused for capacity iff 256 sessions are live |
| `Sessions.Table.Prune` | internal/webui/webui.go:414-420 | deleting while ranging leaves exactly the live tokens |
| `Sessions.Table.Logout` | internal/webui/webui.go:331-342 | from then on exactly this token is no longer live |
| `Sessions.LapseMeansLatestEvent` | internal/webui/webui.go:254-267 | the latest event about a token decides |
| `Sessions.Serve` | internal/webui/webui.go:254-342 | any sequence of requests, authorisations overlapping included, is answered as the history of logins and logouts prescribes, with at most 256 entries |
| `Sessions.AuthorisationsMayOverlap` | internal/webui/webui.go:254-267 | sequences in which the request that took the lock later finishes first are among them |
| `Benchmark.NoDeadlock` | internal/benchmark/benchmark.go:20-40 | until Run returns some step is possible, for any concurrency setting |
| `Benchmark.Exclusive` | internal/benchmark/benchmark.go:20-55 | no node is probed twice or held by two workers, at any moment of any run |
| `Benchmark.NextDecreases` | internal/benchmark/benchmark.go:20-40 | every step decreases a measure |
| `Benchmark.Run` | internal/benchmark/benchmark.go:20-40 | under any scheduler Run returns, and only when every node was probed exactly once |

## Left out

- Cancellation of the context: every run of the supervisor is one without it.
- Container mode of the supervisor, where Configure and Clear do nothing (`Egress.Controller` covers both modes).
- Routes the kernel drops by itself, for example when an interface disappears; the kernel here changes by this program's commands only.
- Dials in flight while egress is cleared: readiness is read before the socket is marked, so the claims are about states, not packets.
- The demo mode, the displayed state and current node, live latency values and all logging.
- The route file: it is saved outside the lock, so file and memory may differ under concurrent setters.
- What the verifier of a blacklisted node does before its verdict, apart from its ip commands; the verdict is arbitrary.
- Process signals: Stop's SIGTERM and SIGKILL only explain why a process may end; the end itself is an outcome.
- Text that is not valid UTF-8: lines and profiles are sequences of Unicode characters, with sizes in UTF-8 bytes.
- `net.ParseIP` and `To4`: any function from text to four octets or none.
- CSV and base64 decoding of the node list, and the columns of a row that decide nothing.
- The expression of parseRemote is modelled for the two patterns it consists of, not regular expressions in general.
- TCP resets, timeouts and deadlines in SOCKS5, the HTTP branch behind the first byte, and the relay after the handshake.
- HMAC-SHA256: any function with 32-byte results. Randomness and constant-time comparison are not modelled.
- Power loss and fsync: crash safety is about the process ending between two system calls.
- Reading JSON back: a file is damaged, absent or a record.
- The login attempt limiter, the HTTP layer and the whole user interface.
- Latency values of the benchmark: a probe either ends or has not ended.
- Fetching through an upstream proxy, sing-box, hy2, netfix and configuration loading.
