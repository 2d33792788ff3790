/**
 The supervisor in host mode, as atomic steps over an explicit program counter: fetching and
 choosing candidates, connecting and probing one after the other, monitoring, drifting. Route
 setters, restores, verification tunnels and the openvpn processes themselves run beside it. The
 outcome of everything outside the program is arbitrary; the context is never cancelled.
 */
module Supervisor {
  import opened Common
  import opened Egress
  import Monitor
  import Route

  type Host = string

  // ---------- states ----------

  /** Why a tunnel is taken down. */
  datatype Why = Failure | ModeChange

  /** i is the position in the candidate list. */
  datatype Pc =
    | Starting                                   // Run: the top of the loop
    | Fetching                                   // Run: fetchAndBench
    | Selecting(nodes: seq<Route.Node>)          // Run: selectCandidates
    | Resting                                    // Run: wait
    | Returned
    | Turning(i: nat)                            // connectLoop: isBlacklisted
    | FixedCheck(i: nat)                         // connectLoop: isFixedNode
    | Preparing(i: nat)                          // connectAndVerify: prepareFiles
    | Spawning(i: nat)                           // New, Start
    | Shaking(i: nat)                            // WaitHandshake
    | Looking(i: nat)                            // Device, InterfaceByName
    | Installing(i: nat, device: string, k: nat) // setupHostRoute: the k-th of its four commands
    | Undoing(i: nat, k: nat)                    // clearHostRoute after the rule was refused
    | Publishing(i: nat, device: string)         // Configure: device and ready
    | Settling(i: nat)                           // sleep
    | Probing(i: nat, t: nat)                    // initial probes
    | Watching(i: nat, fails: nat)               // monitor
    | Clearing(i: nat, why: Why)                 // stopTunnel: ready and device
    | Deleting(i: nat, why: Why, k: nat)         // clearHostRoute
    | Halting(i: nat, why: Why)                  // Stop
    | Marking(i: nat)                            // markBlacklisted

  /** A serving openvpn process; `reported` collects every device name it has printed. */
  datatype Process = Process(alive: bool, shaken: bool, device: string, reported: set<string>)

  /** The route, its wake-up channel, and how often each was used; `unsent` counts setters between write and send. */
  datatype Wake = Wake(route: Route.Config, token: bool, unsent: nat, calls: nat, exits: nat)

  /**
     The refresh request flag and its channel; `unsent` counts callers of TriggerFetch between the swap
     and the send, `rings` the swaps that found the flag down, `cycles` how often Run took it down.
   */
  datatype Refresh = Refresh(flag: bool, token: bool, unsent: nat, calls: nat, rings: nat, cycles: nat)

  datatype Fate = Skipped | Attempting | Blacklisted | LeftForMode

  /** One turn of connectLoop: what it found and how it ended. */
  datatype Turn = Turn(node: Route.Node, blacklisted: bool, fixed: bool, fate: Fate)

  /** The current run of connectLoop; `restored` and `changed` tell what others did since it began. */
  datatype Loop = Loop(candidates: seq<Route.Node>, chosen: Route.Config, turns: seq<Turn>, restored: set<Host>, changed: bool)

  datatype State = State(
    pc: Pc, egress: Snapshot, tunnel: Option<nat>, processes: seq<Process>,
    wake: Wake, refresh: Refresh, blacklist: set<Host>, loop: Loop, attempts: nat
  )

  /** HealthMaxFails, InitialProbeTries and the letter cases of the route configuration. */
  datatype Settings = Settings(maxFails: int, tries: int, letters: Route.Letters)

  // ---------- steps ----------

  datatype RunStep =
    | Began
    | Fetched(nodes: seq<Route.Node>)
    | Chosen
    | Rested(refresh: bool)
    | CheckedBlacklist
    | CheckedFixed
    | MarkedNode

  datatype ConnectStep =
    | Prepared(ok: bool)
    | Spawned(ok: bool)
    | Shook(ok: bool)
    | Looked(found: bool)
    | Settled
    | Probed(healthy: bool)
    | Watched(round: Monitor.Round)

  datatype EgressStep =
    | Ip(outcome: Outcome)
    | Published
    | Cleared
    | Halted

  datatype OtherStep =
    | SetRoute(config: Route.Config)
    | SendWake
    | SwapRefresh
    | SendRefresh
    | Restore(hosts: set<Host>)
    | ProbeCommand(command: Command, outcome: Outcome)
    | Reports(process: nat, device: string)
    | Shakes(process: nat)
    | Dies(process: nat)

  datatype Action = Run(run: RunStep) | Connect(connect: ConnectStep) | Drive(drive: EgressStep) | Other(other: OtherStep)

  function Init(kernel: Kernel, route: Route.Config, blacklist: set<Host>): State {
    State(Starting, Snapshot("", false, kernel), None, [], Wake(route, false, 0, 0, 0),
          Refresh(false, false, 0, 0, 0, 0), blacklist, Loop([], route, [], {}, false), 0)
  }

  /** The four commands of setupHostRoute. */
  function SetupCommands(device: string): seq<Command> { HostRouteCleanupCommands() + HostRouteCommands(device) }

  predicate RunEnabled(s: State, x: RunStep) {
    match x
    case Began => s.pc.Starting?
    case Fetched(_) => s.pc.Fetching?
    case Chosen => s.pc.Selecting?
    case Rested(refresh) => s.pc.Resting? && (refresh ==> s.refresh.token)
    case CheckedBlacklist => s.pc.Turning?
    case CheckedFixed => s.pc.FixedCheck? && s.pc.i < |s.loop.candidates|
    case MarkedNode => s.pc.Marking? && s.pc.i < |s.loop.candidates|
  }

  predicate Current(s: State) { s.tunnel.Some? && s.tunnel.value < |s.processes| }

  predicate ConnectEnabled(s: State, x: ConnectStep) {
    match x
    case Prepared(_) => s.pc.Preparing?
    case Spawned(_) => s.pc.Spawning?
    case Shook(ok) => s.pc.Shaking? && (ok ==> Current(s) && s.processes[s.tunnel.value].shaken)
    case Looked(_) => s.pc.Looking? && Current(s)
    case Settled => s.pc.Settling?
    case Probed(_) => s.pc.Probing?
    case Watched(r) =>
      s.pc.Watching? &&
      match r
      case Done => false                          // the context is not cancelled
      case EventsClosed => false                  // nothing closes the event channel
      case ModeToken => s.wake.token
      case Exited(_) => Current(s) && !s.processes[s.tunnel.value].alive
      case _ => true
  }

  predicate DriveEnabled(s: State, x: EgressStep) {
    match x
    case Ip(_) => (s.pc.Installing? && s.pc.k < 4) || (s.pc.Undoing? && s.pc.k < 2) || (s.pc.Deleting? && s.pc.k < 2)
    case Published => s.pc.Publishing?
    case Cleared => s.pc.Clearing?
    case Halted => s.pc.Halting?
  }

  predicate AliveAt(s: State, p: nat) { p < |s.processes| && s.processes[p].alive }

  /** `wakes` and `rings` callers are between their write and their send. */
  predicate OtherReady(wakes: nat, rings: nat, processes: seq<Process>, x: OtherStep) {
    match x
    case SetRoute(_) => true
    case SendWake => wakes > 0
    case SwapRefresh => true
    case SendRefresh => rings > 0
    case Restore(_) => true
    case ProbeCommand(c, _) => ProbingCommand(c)
    case Reports(p, _) => p < |processes|       // output may be read after the end of the process
    case Shakes(p) => p < |processes|
    case Dies(p) => p < |processes| && processes[p].alive
  }

  predicate OtherEnabled(s: State, x: OtherStep) { OtherReady(s.wake.unsent, s.refresh.unsent, s.processes, x) }

  predicate Enabled(s: State, a: Action) {
    match a
    case Run(x) => RunEnabled(s, x)
    case Connect(x) => ConnectEnabled(s, x)
    case Drive(x) => DriveEnabled(s, x)
    case Other(x) => OtherEnabled(s, x)
  }

  // Run and connectLoop

  function At(s: State, pc: Pc): State { s.(pc := pc) }

  function EndTurn(s: State, fate: Fate): State
    requires s.loop.turns != []
  {
    var last := |s.loop.turns| - 1;
    s.(loop := s.loop.(turns := s.loop.turns[last := s.loop.turns[last].(fate := fate)]))
  }

  function AddTurn(s: State, t: Turn): State { s.(loop := s.loop.(turns := s.loop.turns + [t])) }

  /** The beginning of connectAndVerify. */
  function Attempt(s: State, i: nat, blacklisted: bool, fixed: bool): State
    requires i < |s.loop.candidates|
  {
    At(AddTurn(s, Turn(s.loop.candidates[i], blacklisted, fixed, Attempting)), Preparing(i)).(attempts := s.attempts + 1)
  }

  function DoRun(c: Settings, s: State, x: RunStep): State
    requires RunEnabled(s, x)
  {
    match x
    case Began => At(s.(refresh := s.refresh.(flag := false, cycles := s.refresh.cycles + 1)), Fetching)
    case Fetched(nodes) => At(s, if nodes == [] then Resting else Selecting(nodes))
    case Chosen =>
      var candidates := Route.Select(c.letters, s.pc.nodes, s.wake.route);
      At(s.(loop := Loop(candidates, s.wake.route, [], {}, false)), if candidates == [] then Resting else Turning(0))
    case Rested(refresh) =>
      if refresh then At(s.(refresh := s.refresh.(token := false)), Returned) else At(s, Starting)
    case CheckedBlacklist =>
      var i := s.pc.i;
      if i >= |s.loop.candidates| then At(s, Resting)
      else if s.loop.candidates[i].host in s.blacklist then At(s, FixedCheck(i))
      else Attempt(s, i, false, false)
    case CheckedFixed =>
      var i := s.pc.i;
      if Route.IsFixed(s.loop.candidates[i], s.wake.route) then Attempt(s, i, true, true)
      else At(AddTurn(s, Turn(s.loop.candidates[i], true, false, Skipped)), Turning(i + 1))
    case MarkedNode =>
      var i := s.pc.i;
      var marked := s.(blacklist := s.blacklist + {s.loop.candidates[i].host});
      At(if s.loop.turns != [] then EndTurn(marked, Blacklisted) else marked, Turning(i + 1))
  }

  // connectAndVerify and monitor

  function DoConnect(c: Settings, s: State, x: ConnectStep): State
    requires ConnectEnabled(s, x)
  {
    match x
    case Prepared(ok) => At(s, if ok then Spawning(s.pc.i) else Marking(s.pc.i))
    case Spawned(ok) =>
      var t := s.(tunnel := Some(|s.processes|), processes := s.processes + [Process(ok, false, "", {})]);
      At(t, if ok then Shaking(s.pc.i) else Marking(s.pc.i))
    case Shook(ok) => At(s, if ok then Looking(s.pc.i) else Clearing(s.pc.i, Failure))
    case Looked(found) =>
      var device := s.processes[s.tunnel.value].device;
      At(s, if device != "" && found then Installing(s.pc.i, device, 0) else Clearing(s.pc.i, Failure))
    case Settled => At(s, if c.tries < 1 then Clearing(s.pc.i, Failure) else Probing(s.pc.i, 0))
    case Probed(healthy) =>
      var i, t := s.pc.i, s.pc.t;
      At(s, if healthy then Watching(i, 0) else if t + 1 < c.tries then Probing(i, t + 1) else Clearing(i, Failure))
    case Watched(r) =>
      match Monitor.Step(s.pc.fails, r, c.maxFails)
      case GoOn(fails) => At(s, Watching(s.pc.i, fails))
      case Leave(reason) =>
        if reason.ModeChanged? then At(s.(wake := s.wake.(token := false)), Clearing(s.pc.i, ModeChange))
        else At(s, Clearing(s.pc.i, Failure))
  }

  // Configure, Clear and Stop

  function Executed(s: State, command: Command, o: Outcome): State {
    s.(egress := s.egress.(kernel := Exec(s.egress.kernel, command, o)))
  }

  /** A command of setupHostRoute: the first two may fail, the third aborts, the fourth is undone. */
  function DoInstall(s: State, o: Outcome): State
    requires s.pc.Installing? && s.pc.k < 4
  {
    var i, d, k := s.pc.i, s.pc.device, s.pc.k;
    At(Executed(s, SetupCommands(d)[k], o),
       if k < 2 then Installing(i, d, k + 1)
       else if k == 2 then (if o.Done? then Installing(i, d, 3) else Clearing(i, Failure))
       else if o.Done? then Publishing(i, d) else Undoing(i, 0))
  }

  function DoCommand(s: State, o: Outcome): State
    requires DriveEnabled(s, Ip(o))
  {
    if s.pc.Installing? then DoInstall(s, o)
    else
      var t := Executed(s, HostRouteCleanupCommands()[s.pc.k], o);
      if s.pc.Undoing? then At(t, if s.pc.k == 0 then Undoing(s.pc.i, 1) else Clearing(s.pc.i, Failure))
      else At(t, if s.pc.k == 0 then Deleting(s.pc.i, s.pc.why, 1) else Halting(s.pc.i, s.pc.why))
  }

  function Kill(s: State): State {
    if Current(s) then s.(processes := s.processes[s.tunnel.value := s.processes[s.tunnel.value].(alive := false)], tunnel := None)
    else s.(tunnel := None)
  }

  function DoHalt(s: State): State
    requires s.pc.Halting?
  {
    var i := s.pc.i;
    var t := Kill(s);
    if s.pc.why.Failure? then At(t, Marking(i))
    else
      At((if t.loop.turns != [] then EndTurn(t, LeftForMode) else t).(wake := t.wake.(exits := t.wake.exits + 1)), Starting)
  }

  function DoDrive(s: State, x: EgressStep): State
    requires DriveEnabled(s, x)
  {
    match x
    case Ip(o) => DoCommand(s, o)
    case Published => At(s.(egress := s.egress.(device := s.pc.device, ready := true)), Settling(s.pc.i))
    case Cleared => At(s.(egress := s.egress.(device := "", ready := false)), Deleting(s.pc.i, s.pc.why, 0))
    case Halted => DoHalt(s)
  }

  // everyone else

  function DoOther(s: State, x: OtherStep): State
    requires OtherEnabled(s, x)
  {
    match x
    case SetRoute(config) =>
      s.(wake := s.wake.(route := config, unsent := s.wake.unsent + 1, calls := s.wake.calls + 1),
         loop := s.loop.(changed := true))
    case SendWake => s.(wake := s.wake.(token := true, unsent := s.wake.unsent - 1))
    case SwapRefresh =>
      var rung := if s.refresh.flag then 0 else 1;
      s.(refresh := s.refresh.(flag := true, calls := s.refresh.calls + 1,
                               rings := s.refresh.rings + rung, unsent := s.refresh.unsent + rung))
    case SendRefresh => s.(refresh := s.refresh.(token := true, unsent := s.refresh.unsent - 1))
    case Restore(hosts) => s.(blacklist := s.blacklist - hosts, loop := s.loop.(restored := s.loop.restored + hosts))
    case ProbeCommand(command, o) => Executed(s, command, o)
    case Reports(p, device) =>
      s.(processes := s.processes[p := s.processes[p].(device := device, reported := s.processes[p].reported + {device})])
    case Shakes(p) => s.(processes := s.processes[p := s.processes[p].(shaken := true)])
    case Dies(p) => s.(processes := s.processes[p := s.processes[p].(alive := false)])
  }

  function Do(c: Settings, s: State, a: Action): State
    requires Enabled(s, a)
  {
    match a
    case Run(x) => DoRun(c, s, x)
    case Connect(x) => DoConnect(c, s, x)
    case Drive(x) => DoDrive(s, x)
    case Other(x) => DoOther(s, x)
  }

  /** The state a schedule leads to from the start; None if it asks for a step that is not possible. */
  function Schedule(c: Settings, first: State, acts: seq<Action>): Option<State> {
    if acts == [] then Some(first)
    else
      var before := Schedule(c, first, acts[..|acts| - 1]);
      var last := acts[|acts| - 1];
      if before.Some? && Enabled(before.value, last) then Some(Do(c, before.value, last)) else None
  }
}
