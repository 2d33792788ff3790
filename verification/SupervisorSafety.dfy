/**
 What no schedule can break: host egress fails closed, at most one serving process runs, no route
 change is lost, and verification tunnels do not touch what serving traffic meets.
 */
module SupervisorSafety {
  import opened Common
  import opened Egress
  import opened Supervisor
  import Route

  // ---------- fail-closed egress ----------

  /** connectAndVerify has spawned its tunnel and stopTunnel has not finished. */
  predicate HasTunnel(pc: Pc) {
    pc.Shaking? || pc.Looking? || pc.Installing? || pc.Undoing? || pc.Publishing? || pc.Settling? ||
    pc.Probing? || pc.Watching? || pc.Clearing? || pc.Deleting? || pc.Halting?
  }

  /** The handshake of the current tunnel has completed. */
  predicate PastHandshake(pc: Pc) {
    pc.Looking? || pc.Installing? || pc.Undoing? || pc.Publishing? || Open(pc)
  }

  predicate Open(pc: Pc) { pc.Settling? || pc.Probing? || pc.Watching? }

  function Latest(s: State): Process
    requires s.processes != []
  {
    s.processes[|s.processes| - 1]
  }

  /** Processes: only the tunnel of the attempt in progress can be alive. */
  ghost predicate ProcessInv(s: State) {
    && (HasTunnel(s.pc) ==> s.processes != [] && s.tunnel == Some(|s.processes| - 1))
    && (forall p :: 0 <= p < |s.processes| && s.processes[p].alive ==> HasTunnel(s.pc) && p == |s.processes| - 1)
    && (forall p :: 0 <= p < |s.processes| && s.processes[p].device != "" ==> s.processes[p].device in s.processes[p].reported)
    && (PastHandshake(s.pc) || (HasTunnel(s.pc) && s.egress.ready) ==> Latest(s).shaken)
  }

  /** The device being installed was reported by the current tunnel. */
  predicate Vouched(s: State, device: string) {
    device != "" && s.processes != [] && device in Latest(s).reported
  }

  /** The route to the device is in the table. */
  predicate Routed(k: Kernel, device: string) {
    SERVING.table in k.routes && k.routes[SERVING.table] == device
  }

  predicate EgressInv(s: State) {
    && (Open(s.pc) ==> s.egress.ready)
    && (s.egress.ready ==> Open(s.pc) || s.pc.Clearing?)
    && (s.egress.ready ==> Installed(s.egress.kernel, SERVING, s.egress.device) && Vouched(s, s.egress.device))
    && (s.pc.Installing? ==> Vouched(s, s.pc.device) && (s.pc.k >= 3 ==> Routed(s.egress.kernel, s.pc.device)))
    && (s.pc.Publishing? ==> Vouched(s, s.pc.device) && Installed(s.egress.kernel, SERVING, s.pc.device))
  }

  ghost predicate SafeInv(s: State) {
    HasTunnelBounds(s.pc) && ProcessInv(s) && EgressInv(s) && OnlyReserved(s.egress.kernel)
  }

  predicate HasTunnelBounds(pc: Pc) {
    (pc.Installing? ==> pc.k < 4) && (pc.Undoing? ==> pc.k < 2) && (pc.Deleting? ==> pc.k < 2)
  }

  /** Steps outside an attempt move the program counter only. */
  lemma IdleFrame(s: State, t: State)
    requires SafeInv(s) && !HasTunnel(s.pc) && !HasTunnel(t.pc)
    requires t.egress == s.egress && t.tunnel == s.tunnel && t.processes == s.processes
    ensures SafeInv(t)
  {
  }

  lemma RunSafe(c: Settings, s: State, x: RunStep)
    requires SafeInv(s) && RunEnabled(s, x)
    ensures SafeInv(DoRun(c, s, x))
  {
    IdleFrame(s, DoRun(c, s, x));
  }

  lemma SpawnSafe(c: Settings, s: State, ok: bool)
    requires SafeInv(s) && s.pc.Spawning?
    ensures SafeInv(DoConnect(c, s, Spawned(ok)))
  {
  }

  lemma LookSafe(c: Settings, s: State, found: bool)
    requires SafeInv(s) && s.pc.Looking?
    ensures SafeInv(DoConnect(c, s, Looked(found)))
  {
  }

  /** Steps of an attempt that leave egress and processes alone. */
  lemma AttemptFrame(s: State, t: State)
    requires SafeInv(s) && HasTunnel(s.pc) && t.egress == s.egress && t.tunnel == s.tunnel && t.processes == s.processes
    requires t.pc.Clearing? || (s.pc.Shaking? && t.pc.Looking? && Latest(s).shaken) || (Open(s.pc) && Open(t.pc))
    ensures SafeInv(t)
  {
  }

  lemma ConnectSafe(c: Settings, s: State, x: ConnectStep)
    requires SafeInv(s) && ConnectEnabled(s, x)
    ensures SafeInv(DoConnect(c, s, x))
  {
    match x
    case Prepared(ok) => IdleFrame(s, DoConnect(c, s, x));
    case Spawned(ok) => SpawnSafe(c, s, ok);
    case Shook(ok) => AttemptFrame(s, DoConnect(c, s, x));
    case Looked(found) => LookSafe(c, s, found);
    case Settled => AttemptFrame(s, DoConnect(c, s, x));
    case Probed(healthy) => AttemptFrame(s, DoConnect(c, s, x));
    case Watched(r) => AttemptFrame(s, DoConnect(c, s, x));
  }

  // the ip commands

  /** What the four serving commands and any verification command do to the serving side. */
  lemma ServingEffect(k: Kernel, command: Command, o: Outcome, device: string)
    requires ServingCommand(command) || ProbingCommand(command)
    ensures OnlyReserved(k) ==> OnlyReserved(Exec(k, command, o))
    ensures ProbingCommand(command) ==>
      (Installed(Exec(k, command, o), SERVING, device) <==> Installed(k, SERVING, device)) &&
      (Routed(Exec(k, command, o), device) <==> Routed(k, device))
    ensures command == RouteReplace(device, SERVING.table) && o.Done? ==> Routed(Exec(k, command, o), device)
    ensures command == RuleAdd(SERVING) && o.Done? && Routed(k, device) ==> Installed(Exec(k, command, o), SERVING, device)
  {
    NoInterference(k, command, o);
    InstalledByView(k, SERVING, device);
    InstalledByView(Exec(k, command, o), SERVING, device);
  }

  lemma InstallSafe(s: State, o: Outcome)
    requires SafeInv(s) && s.pc.Installing?
    ensures SafeInv(DoInstall(s, o))
  {
    ServingEffect(s.egress.kernel, SetupCommands(s.pc.device)[s.pc.k], o, s.pc.device);
  }

  lemma StaysReserved(k: Kernel, command: Command, o: Outcome)
    requires OnlyReserved(k) && ServingCommand(command)
    ensures OnlyReserved(Exec(k, command, o))
  {
    NoInterference(k, command, o);
  }

  /** While shut, the kernel may change in any reserved way. */
  lemma ShutFrame(s: State, t: State)
    requires SafeInv(s) && HasTunnel(s.pc) && !s.egress.ready && OnlyReserved(t.egress.kernel)
    requires t.tunnel == s.tunnel && t.processes == s.processes && !t.egress.ready
    requires t.pc.Clearing? || t.pc.Halting? || (t.pc.Deleting? && t.pc.k < 2) || (t.pc.Undoing? && t.pc.k < 2 && s.pc.Undoing?)
    ensures SafeInv(t)
  {
  }

  lemma CleanupSafe(s: State, o: Outcome)
    requires SafeInv(s) && (s.pc.Undoing? || s.pc.Deleting?)
    ensures SafeInv(DoCommand(s, o))
  {
    StaysReserved(s.egress.kernel, HostRouteCleanupCommands()[s.pc.k], o);
    ShutFrame(s, DoCommand(s, o));
  }

  lemma HaltSafe(s: State)
    requires SafeInv(s) && s.pc.Halting?
    ensures SafeInv(DoHalt(s))
  {
  }

  lemma DriveSafe(s: State, x: EgressStep)
    requires SafeInv(s) && DriveEnabled(s, x)
    ensures SafeInv(DoDrive(s, x))
  {
    match x
    case Ip(o) => if s.pc.Installing? { InstallSafe(s, o); } else { CleanupSafe(s, o); }
    case Published =>
    case Cleared =>
    case Halted => HaltSafe(s);
  }

  lemma ProbeSafe(s: State, command: Command, o: Outcome)
    requires SafeInv(s) && ProbingCommand(command)
    ensures SafeInv(Executed(s, command, o))
  {
    ServingEffect(s.egress.kernel, command, o, s.egress.device);
    if s.pc.Installing? || s.pc.Publishing? { ServingEffect(s.egress.kernel, command, o, s.pc.device); }
  }

  lemma ProcessSafe(c: Settings, s: State, x: OtherStep)
    requires SafeInv(s) && OtherEnabled(s, x) && (x.Reports? || x.Shakes? || x.Dies?)
    ensures SafeInv(DoOther(s, x))
  {
  }

  lemma OtherSafe(c: Settings, s: State, x: OtherStep)
    requires SafeInv(s) && OtherEnabled(s, x)
    ensures SafeInv(DoOther(s, x))
  {
    match x
    case ProbeCommand(command, o) => ProbeSafe(s, command, o);
    case Reports(_, _) => ProcessSafe(c, s, x);
    case Shakes(_) => ProcessSafe(c, s, x);
    case Dies(_) => ProcessSafe(c, s, x);
    case _ =>
  }

  // ---------- no lost route change ----------

  /** connectLoop has been entered and has not returned. */
  predicate Inside(pc: Pc) { !pc.Starting? && !pc.Fetching? && !pc.Selecting? && !pc.Resting? && !pc.Returned? }

  /** connectLoop is on its way out with errModeChanged. */
  predicate Leaving(pc: Pc) { (pc.Clearing? || pc.Deleting? || pc.Halting?) && pc.why.ModeChange? }

  function One(b: bool): nat { if b then 1 else 0 }

  predicate WakeInv(s: State) {
    && (Inside(s.pc) && s.loop.chosen != s.wake.route ==> s.wake.token || s.wake.unsent > 0 || Leaving(s.pc))
    && (Inside(s.pc) && !s.loop.changed ==> s.loop.chosen == s.wake.route)
    && s.wake.exits + One(Leaving(s.pc)) + One(s.wake.token) + s.wake.unsent <= s.wake.calls
  }

  lemma WakeStep(c: Settings, s: State, a: Action)
    requires WakeInv(s) && Enabled(s, a)
    ensures WakeInv(Do(c, s, a))
  {
    match a
    case Run(x) => RunWake(c, s, x);
    case Connect(x) => ConnectWake(c, s, x);
    case Drive(x) => DriveWake(s, x);
    case Other(x) => OtherWake(s, x);
  }

  lemma RunWake(c: Settings, s: State, x: RunStep)
    requires WakeInv(s) && RunEnabled(s, x)
    ensures WakeInv(DoRun(c, s, x))
  {
  }

  lemma ConnectWake(c: Settings, s: State, x: ConnectStep)
    requires WakeInv(s) && ConnectEnabled(s, x)
    ensures WakeInv(DoConnect(c, s, x))
  {
  }

  lemma DriveWake(s: State, x: EgressStep)
    requires WakeInv(s) && DriveEnabled(s, x)
    ensures WakeInv(DoDrive(s, x))
  {
  }

  lemma OtherWake(s: State, x: OtherStep)
    requires WakeInv(s) && OtherEnabled(s, x)
    ensures WakeInv(DoOther(s, x))
  {
  }

  // ---------- runs ----------

  lemma SafeStep(c: Settings, s: State, a: Action)
    requires SafeInv(s) && Enabled(s, a)
    ensures SafeInv(Do(c, s, a))
  {
    match a
    case Run(x) => RunSafe(c, s, x);
    case Connect(x) => ConnectSafe(c, s, x);
    case Drive(x) => DriveSafe(s, x);
    case Other(x) => OtherSafe(c, s, x);
  }

  lemma {:induction false} RunKeepsInv(c: Settings, first: State, acts: seq<Action>)
    requires SafeInv(first) && WakeInv(first) && Schedule(c, first, acts).Some?
    ensures SafeInv(Schedule(c, first, acts).value) && WakeInv(Schedule(c, first, acts).value)
  {
    if acts != [] {
      RunKeepsInv(c, first, acts[..|acts| - 1]);
      var before := Schedule(c, first, acts[..|acts| - 1]).value;
      SafeStep(c, before, acts[|acts| - 1]);
      WakeStep(c, before, acts[|acts| - 1]);
    }
  }

  lemma InitInv(kernel: Kernel, route: Route.Config, blacklist: set<Host>)
    requires OnlyReserved(kernel)
    ensures SafeInv(Init(kernel, route, blacklist)) && WakeInv(Init(kernel, route, blacklist))
  {
  }

  /**
     In every reachable state that lets dials through, a packet carrying the serving mark can only
     leave by the recorded device; that device was reported by the tunnel the supervisor holds, and
     its handshake has completed.
   */
  lemma {:induction false} FailsClosed(c: Settings, kernel: Kernel, route: Route.Config, blacklist: set<Host>, acts: seq<Action>)
    requires OnlyReserved(kernel) && Schedule(c, Init(kernel, route, blacklist), acts).Some?
    ensures var s := Schedule(c, Init(kernel, route, blacklist), acts).value;
      s.egress.ready ==>
        && FailClosed(s.egress) && Devices(s.egress.kernel, SERVING.mark) == {s.egress.device}
        && Current(s) && s.processes[s.tunnel.value].shaken
        && s.egress.device in s.processes[s.tunnel.value].reported
  {
    InitInv(kernel, route, blacklist);
    RunKeepsInv(c, Init(kernel, route, blacklist), acts);
    var s := Schedule(c, Init(kernel, route, blacklist), acts).value;
    if s.egress.ready { MarkLeadsToDevice(s.egress.kernel, SERVING, s.egress.device); }
  }

  lemma AtMostOne(s: State, p: nat, q: nat)
    requires ProcessInv(s) && EgressInv(s)
    ensures AliveAt(s, p) && AliveAt(s, q) ==> p == q
    ensures !HasTunnel(s.pc) ==> !AliveAt(s, p) && !s.egress.ready
    ensures AliveAt(s, p) ==> s.tunnel == Some(p)
  {
  }

  /** At most one serving process runs, and only during an attempt; outside attempts egress is shut. */
  lemma {:induction false} OneServingProcess(c: Settings, kernel: Kernel, route: Route.Config, blacklist: set<Host>, acts: seq<Action>, p: nat, q: nat)
    requires OnlyReserved(kernel) && Schedule(c, Init(kernel, route, blacklist), acts).Some?
    ensures var s := Schedule(c, Init(kernel, route, blacklist), acts).value;
      && (AliveAt(s, p) && AliveAt(s, q) ==> p == q)
      && (!HasTunnel(s.pc) ==> !AliveAt(s, p) && !s.egress.ready)
      && (AliveAt(s, p) ==> s.tunnel == Some(p))
  {
    InitInv(kernel, route, blacklist);
    RunKeepsInv(c, Init(kernel, route, blacklist), acts);
    AtMostOne(Schedule(c, Init(kernel, route, blacklist), acts).value, p, q);
  }

  /**
     No route change is lost: while connectLoop works on candidates chosen under another
     configuration, its wake-up waits in the channel, is about to be sent, or is being obeyed.
   */
  lemma {:induction false} NoRouteChangeIsLost(c: Settings, kernel: Kernel, route: Route.Config, blacklist: set<Host>, acts: seq<Action>)
    requires OnlyReserved(kernel) && Schedule(c, Init(kernel, route, blacklist), acts).Some?
    ensures var s := Schedule(c, Init(kernel, route, blacklist), acts).value;
      Inside(s.pc) && s.loop.chosen != s.wake.route ==> s.wake.token || s.wake.unsent > 0 || Leaving(s.pc)
  {
    InitInv(kernel, route, blacklist);
    RunKeepsInv(c, Init(kernel, route, blacklist), acts);
  }

  // ---------- verification tunnels ----------

  /** Whatever a verification tunnel does to the kernel, serving traffic meets what it met before. */
  lemma VerificationIsInvisible(s: State, command: Command, o: Outcome)
    requires SafeInv(s) && ProbingCommand(command)
    ensures var t := DoOther(s, ProbeCommand(command, o));
      && View(t.egress.kernel, SERVING) == View(s.egress.kernel, SERVING)
      && Devices(t.egress.kernel, SERVING.mark) == Devices(s.egress.kernel, SERVING.mark)
      && t == s.(egress := s.egress.(kernel := t.egress.kernel))
  {
    var k, l := s.egress.kernel, Exec(s.egress.kernel, command, o);
    NoInterference(k, command, o);
    SameView(k, l, SERVING);
  }

  /** And no step of the supervisor changes what verification traffic meets. */
  lemma ServingIsInvisible(c: Settings, s: State, a: Action)
    requires SafeInv(s) && Enabled(s, a) && !(a.Other? && a.other.ProbeCommand?)
    ensures var t := Do(c, s, a);
      && View(t.egress.kernel, PROBING) == View(s.egress.kernel, PROBING)
      && Devices(t.egress.kernel, PROBING.mark) == Devices(s.egress.kernel, PROBING.mark)
  {
    SafeStep(c, s, a);
    var k, l := s.egress.kernel, Do(c, s, a).egress.kernel;
    if a.Drive? && a.drive.Ip? {
      var command := if s.pc.Installing? then SetupCommands(s.pc.device)[s.pc.k] else HostRouteCleanupCommands()[s.pc.k];
      assert ServingCommand(command) && l == Exec(k, command, a.drive.outcome);
      NoInterference(k, command, a.drive.outcome);
    }
    SameView(k, l, PROBING);
  }

  /** Equal views of a rule mean equal devices for its mark. */
  lemma SameView(k: Kernel, l: Kernel, rule: Rule)
    requires OnlyReserved(k) && OnlyReserved(l) && View(k, rule) == View(l, rule) && rule in {SERVING, PROBING}
    ensures Devices(k, rule.mark) == Devices(l, rule.mark)
  {
    assert Devices(k, rule.mark) == DevicesOf(View(k, rule)) by { DevicesByView(k, rule); }
    assert Devices(l, rule.mark) == DevicesOf(View(l, rule)) by { DevicesByView(l, rule); }
  }

  function DevicesOf(view: (nat, Option<string>)): set<string> {
    if view.0 > 0 && view.1.Some? then {view.1.value} else {}
  }

  lemma DevicesByView(k: Kernel, rule: Rule)
    requires OnlyReserved(k) && rule in {SERVING, PROBING}
    ensures Devices(k, rule.mark) == DevicesOf(View(k, rule))
  {
    assert forall r :: r in k.rules && r.mark == rule.mark ==> r == rule;
    if rule in k.rules && rule.table in k.routes {
      assert Installed(k, rule, k.routes[rule.table]);
      MarkLeadsToDevice(k, rule, k.routes[rule.table]);
    }
  }

  // ---------- nothing is left behind ----------

  /** No serving rule and no serving route. */
  predicate Clean(k: Kernel) { View(k, SERVING) == (0, None) }

  /** What is left of the serving rule and route; `stopped` says that some stopTunnel has finished. */
  predicate CleanInv(s: State, stopped: bool) {
    && View(s.egress.kernel, SERVING).0 <= 1
    && (stopped && Untouched(s.pc) ==> Clean(s.egress.kernel))
    && (s.pc.Halting? ==> Clean(s.egress.kernel))
    && (s.pc.Installing? ==> s.pc.k < 4)
    && (s.pc.Installing? && s.pc.k > 0 ==> View(s.egress.kernel, SERVING).0 == 0)
    && (s.pc.Installing? && s.pc.k == 2 ==> Clean(s.egress.kernel))
    && (s.pc.Deleting? && s.pc.k > 0 ==> View(s.egress.kernel, SERVING).0 == 0)
  }

  /** No serving command has been given since the last stopTunnel. */
  predicate Untouched(pc: Pc) {
    !HasTunnel(pc) || pc.Shaking? || pc.Looking? || (pc.Installing? && pc.k == 0)
  }

  /** A cleanup command that finds nothing of its kind. */
  predicate NothingToRemove(k: Kernel, c: Command) {
    match c
    case RuleDel(rule) => rule !in k.rules
    case RouteFlush(table) => table !in k.routes
    case _ => false
  }

  /** The command of clearHostRoute the step runs, if it is one. */
  function Cleanup(s: State, a: Action): Option<Command> {
    if a.Drive? && a.drive.Ip? && (s.pc.Installing? || s.pc.Undoing? || s.pc.Deleting?) && s.pc.k < 2
    then Some(HostRouteCleanupCommands()[s.pc.k])
    else None
  }

  /** The step does not fail to remove something: a cleanup command takes effect, or finds nothing. */
  predicate Removes(s: State, a: Action) {
    Cleanup(s, a).Some? ==>
      var o := a.drive.outcome;
      o.Done? || o.applied || NothingToRemove(s.egress.kernel, Cleanup(s, a).value)
  }

  /** Every step of the schedule is like that where it is taken. */
  predicate AllRemoved(c: Settings, first: State, acts: seq<Action>)
    requires Schedule(c, first, acts).Some?
  {
    acts == [] ||
    (var before, last := acts[..|acts| - 1], acts[|acts| - 1];
     AllRemoved(c, first, before) && Removes(Schedule(c, first, before).value, last))
  }

  /** Such a command leaves the serving view as if it had succeeded. */
  lemma RemovedIsApplied(k: Kernel, c: Command, o: Outcome)
    requires o.Done? || o.applied || NothingToRemove(k, c)
    ensures View(Exec(k, c, o), SERVING) == View(Apply(k, c), SERVING)
  {
  }

  lemma CleanFrame(s: State, t: State, stopped: bool)
    requires CleanInv(s, stopped) && View(t.egress.kernel, SERVING) == View(s.egress.kernel, SERVING)
    requires t.pc == s.pc || (Untouched(t.pc) && Untouched(s.pc)) || t.pc.Clearing? || Open(t.pc) || (t.pc.Deleting? && t.pc.k == 0)
    ensures CleanInv(t, stopped)
  {
  }

  lemma InstallClean(s: State, o: Outcome, stopped: bool)
    requires CleanInv(s, stopped) && s.pc.Installing? && Removes(s, Drive(Ip(o)))
    ensures CleanInv(DoInstall(s, o), stopped)
  {
    if s.pc.k < 2 { RemovedIsApplied(s.egress.kernel, HostRouteCleanupCommands()[s.pc.k], o); }
  }

  /** Undoing and deleting: the rule first, then the route. */
  lemma DeleteClean(s: State, o: Outcome, stopped: bool)
    requires CleanInv(s, stopped) && (s.pc.Undoing? || s.pc.Deleting?) && s.pc.k < 2 && Removes(s, Drive(Ip(o)))
    ensures CleanInv(DoCommand(s, o), stopped)
  {
    RemovedIsApplied(s.egress.kernel, HostRouteCleanupCommands()[s.pc.k], o);
  }

  lemma HaltClean(s: State, stopped: bool)
    requires CleanInv(s, stopped) && s.pc.Halting?
    ensures CleanInv(DoHalt(s), true)
  {
  }

  lemma DriveClean(s: State, x: EgressStep, stopped: bool)
    requires CleanInv(s, stopped) && DriveEnabled(s, x) && Removes(s, Drive(x))
    ensures CleanInv(DoDrive(s, x), stopped || x.Halted?)
  {
    match x
    case Ip(o) => if s.pc.Installing? { InstallClean(s, o, stopped); } else { DeleteClean(s, o, stopped); }
    case Published => CleanFrame(s, DoDrive(s, x), stopped);
    case Cleared => CleanFrame(s, DoDrive(s, x), stopped);
    case Halted => HaltClean(s, stopped);
  }

  lemma OtherClean(s: State, x: OtherStep, stopped: bool)
    requires CleanInv(s, stopped) && OtherEnabled(s, x)
    ensures CleanInv(DoOther(s, x), stopped)
  {
    if x.ProbeCommand? { NoInterference(s.egress.kernel, x.command, x.outcome); }
    CleanFrame(s, DoOther(s, x), stopped);
  }

  lemma CleanStep(c: Settings, s: State, a: Action, stopped: bool)
    requires CleanInv(s, stopped) && Enabled(s, a) && Removes(s, a)
    ensures CleanInv(Do(c, s, a), stopped || a == Drive(Halted))
  {
    match a
    case Run(x) => CleanFrame(s, DoRun(c, s, x), stopped);
    case Connect(x) => CleanFrame(s, DoConnect(c, s, x), stopped);
    case Drive(x) => DriveClean(s, x, stopped);
    case Other(x) => OtherClean(s, x, stopped);
  }

  lemma {:induction false} RunKeepsClean(c: Settings, first: State, acts: seq<Action>)
    requires CleanInv(first, false) && Schedule(c, first, acts).Some? && AllRemoved(c, first, acts)
    ensures CleanInv(Schedule(c, first, acts).value, Drive(Halted) in acts)
  {
    if acts != [] {
      var before, last := acts[..|acts| - 1], acts[|acts| - 1];
      RunKeepsClean(c, first, before);
      CleanStep(c, Schedule(c, first, before).value, last, Drive(Halted) in before);
      InButLast(acts, Drive(Halted));
    }
  }

  lemma InButLast(acts: seq<Action>, a: Action)
    requires acts != []
    ensures a in acts <==> a in acts[..|acts| - 1] || acts[|acts| - 1] == a
  {
    assert acts == acts[..|acts| - 1] + [acts[|acts| - 1]];
  }

  /**
     In any run in which no cleanup command fails to remove something, whatever becomes of all other
     commands, started on a kernel with at most one serving rule, such as an earlier process left
     behind, and any serving route: there is never more than one rule; every stopTunnel reaps its
     process on a kernel free of both, and once one has finished nothing is left whenever no attempt
     is in progress. A cleanup command refused for want of anything to remove, as the first one is on
     a clean kernel, does no harm.
   */
  lemma {:induction false} NothingIsLeftBehind(c: Settings, kernel: Kernel, route: Route.Config, blacklist: set<Host>, acts: seq<Action>)
    requires kernel.rules[SERVING] <= 1 && Schedule(c, Init(kernel, route, blacklist), acts).Some?
    requires AllRemoved(c, Init(kernel, route, blacklist), acts)
    ensures var s := Schedule(c, Init(kernel, route, blacklist), acts).value;
      && s.egress.kernel.rules[SERVING] <= 1
      && (s.pc.Halting? || (Drive(Halted) in acts && !HasTunnel(s.pc)) ==>
            SERVING !in s.egress.kernel.rules && SERVING.table !in s.egress.kernel.routes)
  {
    RunKeepsClean(c, Init(kernel, route, blacklist), acts);
  }

  /**
     The condition is exact: where there is at most one rule, a stopTunnel reaps its process on a kernel
     free of rule and route exactly if neither of its two cleanup commands fails to remove something,
     whatever others do between the two.
   */
  lemma StopCleansExactly(s: State, first: Outcome, t: State, second: Outcome)
    requires s.pc.Deleting? && s.pc.k == 0 && View(s.egress.kernel, SERVING).0 <= 1
    requires t.pc == DoCommand(s, first).pc
    requires View(t.egress.kernel, SERVING) == View(DoCommand(s, first).egress.kernel, SERVING)
    ensures DoCommand(t, second).pc.Halting?
    ensures Clean(DoCommand(t, second).egress.kernel) <==> Removes(s, Drive(Ip(first))) && Removes(t, Drive(Ip(second)))
  {
    var k := DoCommand(s, first).egress.kernel;
    if Removes(s, Drive(Ip(first))) {
      RemovedIsApplied(s.egress.kernel, HostRouteCleanupCommands()[0], first);
      assert View(k, SERVING).0 == 0;
    } else {
      assert View(k, SERVING).0 == 1;
    }
    assert View(DoCommand(t, second).egress.kernel, SERVING).0 == View(k, SERVING).0;
  }
}
