/**
 The supervisor goroutine as the manager's methods over its fields. What the outside does is handed
 out by a World: outcomes, and a batch of what route setters, refresh and restore requests,
 verification tunnels and processes do before the supervisor's next step. The methods decide by what
 they read and by the errors they get back; the program counter of the supervisor protocol is ghost,
 follows every atomic section, and is proved to be where the control flow says.
 */
module SupervisorCode {
  import opened Common
  import opened Egress
  import opened Supervisor
  import opened SupervisorSafety
  import opened SupervisorTrace
  import opened SupervisorRefresh
  import Monitor
  import Route

  /** The k-th answer of the outside. */
  datatype World = World(
    others: nat -> seq<OtherStep>, nodes: nat -> seq<Route.Node>, good: nat -> bool,
    ip: nat -> Outcome, round: nat -> Monitor.Round
  )

  /** What nobody but the supervisor changes. */
  datatype Own = Own(pc: Pc, tunnel: Option<nat>, candidates: seq<Route.Node>, turns: seq<Turn>, attempts: nat,
                     serving: (nat, Option<string>), ready: bool)

  function OwnOf(s: State): Own {
    Own(s.pc, s.tunnel, s.loop.candidates, s.loop.turns, s.attempts, View(s.egress.kernel, SERVING), s.egress.ready)
  }

  lemma OthersKeepOwn(s: State, x: OtherStep)
    requires OtherEnabled(s, x)
    ensures OwnOf(DoOther(s, x)) == OwnOf(s)
  {
    if x.ProbeCommand? { NoInterference(s.egress.kernel, x.command, x.outcome); }
  }

  /** The part of a state the program itself holds or drives; the rest is bookkeeping. */
  datatype Held = HeldBy(egress: Snapshot, tunnel: Option<nat>, processes: seq<Process>,
                         route: Route.Config, modeCh: bool, wakes: nat,
                         refreshReq: bool, refreshCh: bool, rings: nat, blacklist: set<Host>)

  function HeldOf(s: State): Held {
    HeldBy(s.egress, s.tunnel, s.processes, s.wake.route, s.wake.token, s.wake.unsent,
           s.refresh.flag, s.refresh.token, s.refresh.unsent, s.blacklist)
  }

  /** The ip command the protocol expects at a program counter. */
  predicate Expects(pc: Pc, command: Command) {
    || (pc.Installing? && pc.k < 4 && command == SetupCommands(pc.device)[pc.k])
    || (pc.Undoing? && pc.k < 2 && command == HostRouteCleanupCommands()[pc.k])
    || (pc.Deleting? && pc.k < 2 && command == HostRouteCleanupCommands()[pc.k])
  }

  /** Where the protocol goes when that command has ended. */
  function AfterIp(pc: Pc, o: Outcome): Pc
    requires pc.Installing? || pc.Undoing? || pc.Deleting?
  {
    match pc
    case Installing(i, d, k) =>
      if k < 2 then Installing(i, d, k + 1)
      else if k == 2 then (if o.Done? then Installing(i, d, 3) else Clearing(i, Failure))
      else if o.Done? then Publishing(i, d) else Undoing(i, 0)
    case Undoing(i, k) => if k == 0 then Undoing(i, 1) else Clearing(i, Failure)
    case Deleting(i, why, k) => if k == 0 then Deleting(i, why, 1) else Halting(i, why)
  }

  lemma IpStep(c: Settings, s: State, command: Command, o: Outcome)
    requires Expects(s.pc, command)
    ensures Enabled(s, Drive(Ip(o)))
    ensures var t := Do(c, s, Drive(Ip(o)));
      t == s.(pc := AfterIp(s.pc, o), egress := s.egress.(kernel := Exec(s.egress.kernel, command, o)))
  {
  }

  lemma PublishStep(c: Settings, s: State)
    requires s.pc.Publishing?
    ensures Do(c, s, Drive(Published)) == s.(pc := Settling(s.pc.i), egress := s.egress.(device := s.pc.device, ready := true))
  {
  }

  lemma ClearStep(c: Settings, s: State)
    requires s.pc.Clearing?
    ensures Do(c, s, Drive(Cleared)) == s.(pc := Deleting(s.pc.i, s.pc.why, 0), egress := s.egress.(device := "", ready := false))
  {
  }

  datatype LoopEnd = Exhausted | RouteChanged | StillWatching

  datatype TurnEnd = NextTurn | LoopOver(end: LoopEnd)

  class Manager {
    const c: Settings
    const world: World
    var device: string
    var ready: bool
    var kernel: Kernel
    var tun: Option<nat>
    var processes: seq<Process>
    var route: Route.Config
    var modeCh: bool
    var refreshReq: bool
    var refreshCh: bool
    var blacklist: set<Host>
    /** Callers between their write and their send. */
    var wakes: nat
    var rings: nat
    /** How often the outside has been asked. */
    var clock: nat

    /** Where the protocol stands: program counter, history, counters, and its view of the fields. */
    ghost var at: State
    ghost var run: seq<Action>
    /** What was found at the start. */
    ghost const kernel0: Kernel
    ghost const route0: Route.Config
    ghost const blacklist0: set<Host>

    ghost function First(): State { Init(kernel0, route0, blacklist0) }

    ghost function Held(): Held reads this {
      HeldBy(Snapshot(device, ready, kernel), tun, processes, route, modeCh, wakes, refreshReq, refreshCh, rings, blacklist)
    }

    /** A schedule from a proper start leads to where the protocol stands, and the fields agree. */
    ghost predicate Valid() reads this {
      OnlyReserved(kernel0) && LedTo(c, First(), run, at) && Held() == HeldOf(at)
    }

    constructor (c: Settings, world: World, kernel: Kernel, route: Route.Config, blacklist: set<Host>)
      requires OnlyReserved(kernel)
      ensures Valid() && at == Init(kernel, route, blacklist) && run == []
    {
      this.c, this.world, clock := c, world, 0;
      device, ready, this.kernel := "", false, kernel;
      tun, processes := None, [];
      this.route, modeCh, refreshReq, refreshCh, wakes, rings := route, false, false, false, 0, 0;
      this.blacklist := blacklist;
      at, run := Init(kernel, route, blacklist), [];
      kernel0, route0, blacklist0 := kernel, route, blacklist;
    }

    /**
     The protocol takes the step the program has just performed on its fields. That both do the same
     to the fields is required; where the program counter goes is up to the protocol.
     */
    ghost method Note(a: Action)
      requires OnlyReserved(kernel0) && LedTo(c, First(), run, at) && Enabled(at, a)
      requires Held() == HeldOf(Do(c, at, a))
      modifies this`at, this`run
      ensures Valid() && at == Do(c, old(at), a) && run == old(run) + [a]
    {
      LedStep(c, First(), run, at, a);
      at, run := Do(c, at, a), run + [a];
    }

    // ---------- what every reachable state satisfies ----------

    lemma Facts()
      requires Valid()
      ensures SafeInv(at) && WakeInv(at) && LoopInv(at)
    {
      Unlock(c, First(), run, at);
      InitInv(kernel0, route0, blacklist0);
      RunKeepsInv(c, First(), run);
      ReachedLoopInv(c, kernel0, route0, blacklist0, run);
    }

    /** The bounds the steps of a turn rely on. */
    lemma Bounds()
      requires Valid()
      ensures InAttempt(at.pc) || at.pc.FixedCheck? ==> at.pc.i < |at.loop.candidates|
      ensures InAttempt(at.pc) ==> at.loop.turns != []
      ensures HasTunnel(at.pc) ==> Current(at)
    {
      Facts();
    }

    /** Outside an attempt egress is shut and no process lives. */
    lemma AtRest()
      requires Valid() && !HasTunnel(at.pc)
      ensures Shut()
    {
      Facts();
    }

    ghost predicate Shut() reads this { !ready && forall p :: 0 <= p < |processes| ==> !processes[p].alive }

    lemma WhileOpen()
      requires Valid()
      ensures at.pc.Watching? ==> ready && FailClosed(Snapshot(device, ready, kernel))
      ensures at.pc.Publishing? ==> Installed(kernel, SERVING, at.pc.device)
    {
      Facts();
    }

    /** connectLoop has returned errModeChanged. */
    ghost predicate LeftTheLoop() reads this {
      at.pc.Starting? && at.loop.turns != [] && at.loop.turns[|at.loop.turns| - 1].fate.LeftForMode?
    }

    // ---------- the others ----------

    /** A caller's section under a mutex, or one of its channel operations. */
    method CallerActs(x: OtherStep)
      requires Valid() && OtherReady(wakes, rings, processes, x)
      requires !x.ProbeCommand? && !x.Reports? && !x.Shakes? && !x.Dies?
      modifies this
      ensures Valid() && at == DoOther(old(at), x) && clock == old(clock) && run == old(run) + [Other(x)]
      ensures route == (if x.SetRoute? then x.config else old(route))
      ensures blacklist == (if x.Restore? then old(blacklist) - x.hosts else old(blacklist))
    {
      match x {
        case SetRoute(config) => route, wakes := config, wakes + 1;
        case SendWake => modeCh, wakes := true, wakes - 1;
        case SwapRefresh => rings := if refreshReq then rings else rings + 1; refreshReq := true;
        case SendRefresh => refreshCh, rings := true, rings - 1;
        case Restore(hosts) => blacklist := blacklist - hosts;
      }
      Note(Other(x));
    }

    /** A verification command, or something that happens to a process. */
    method OutsideActs(x: OtherStep)
      requires Valid() && OtherReady(wakes, rings, processes, x)
      requires x.ProbeCommand? || x.Reports? || x.Shakes? || x.Dies?
      modifies this
      ensures Valid() && at == DoOther(old(at), x) && clock == old(clock) && run == old(run) + [Other(x)]
    {
      match x {
        case ProbeCommand(command, o) => kernel := Exec(kernel, command, o);
        case Reports(p, name) =>
          processes := processes[p := processes[p].(device := name, reported := processes[p].reported + {name})];
        case Shakes(p) => processes := processes[p := processes[p].(shaken := true)];
        case Dies(p) => processes := processes[p := processes[p].(alive := false)];
      }
      Note(Other(x));
    }

    /** The others go on; steps that are not possible are skipped. Yields the number of this question. */
    method Ask() returns (k: nat)
      requires Valid()
      modifies this
      ensures Valid() && OwnOf(at) == old(OwnOf(at)) && k == old(clock) && clock == k + 1
    {
      k := clock;
      var batch := world.others(k);
      for j := 0 to |batch|
        invariant Valid() && OwnOf(at) == old(OwnOf(at)) && clock == k
      {
        if OtherReady(wakes, rings, processes, batch[j]) {
          OthersKeepOwn(at, batch[j]);
          if batch[j].ProbeCommand? || batch[j].Reports? || batch[j].Shakes? || batch[j].Dies? {
            OutsideActs(batch[j]);
          } else {
            CallerActs(batch[j]);
          }
        }
      }
      clock := clock + 1;
    }

    // ---------- egress_linux.go ----------

    /** The candidates and their turns so far. */
    ghost function Trail(): (seq<Route.Node>, seq<Turn>) reads this { (at.loop.candidates, at.loop.turns) }

    method ExecIP(command: Command, o: Outcome)
      requires Valid() && Expects(at.pc, command)
      modifies this
      ensures Valid() && kernel == Exec(old(kernel), command, o) && clock == old(clock)
      ensures at == old(at).(pc := AfterIp(old(at.pc), o), egress := at.egress)
    {
      IpStep(c, at, command, o);
      kernel := Exec(kernel, command, o);
      Note(Drive(Ip(o)));
    }

    /** runIP, with others at work before the command takes effect. */
    method RunIP(command: Command) returns (ok: bool)
      requires Valid() && Expects(at.pc, command)
      modifies this
      ensures Valid() && Trail() == old(Trail()) && clock == old(clock) + 1
      ensures var o := world.ip(old(clock));
        && ok == o.Done? && at.pc == AfterIp(old(at.pc), o)
        && View(kernel, SERVING) == View(Exec(old(kernel), command, o), SERVING)
    {
      var k := Ask();
      var o := world.ip(k);
      SameExec(old(kernel), kernel, command, o);
      ExecIP(command, o);
      ok := o.Done?;
    }

    /** clearHostRoute: both commands are given whatever becomes of them. */
    method ClearHostRoute()
      requires Valid() && (at.pc.Installing? || at.pc.Undoing? || at.pc.Deleting?) && at.pc.k == 0
      modifies this
      ensures Valid() && Trail() == old(Trail()) && clock == old(clock) + 2
      ensures at.pc == AfterCleanup(old(at.pc))
      ensures world.ip(old(clock) + 1).Done? ==> View(kernel, SERVING).1 == None
      ensures View(kernel, SERVING).0 <= old(View(kernel, SERVING).0)
    {
      var commands := HostRouteCleanupCommands();
      var _ := RunIP(commands[0]);
      var _ := RunIP(commands[1]);
    }

    /**
     setupHostRoute: succeeds exactly if the route and then the rule are installed. A refused route
     adds no rule, and a refused rule is undone as far as the cleanup commands succeed.
     */
    method SetupHostRoute(name: string) returns (ok: bool)
      requires Valid() && at.pc.Installing? && at.pc.k == 0 && at.pc.device == name
      modifies this
      ensures Valid() && Trail() == old(Trail())
      ensures at.pc == if ok then Publishing(old(at.pc.i), name) else Clearing(old(at.pc.i), Failure)
      ensures ok <==> world.ip(old(clock) + 2).Done? && world.ip(old(clock) + 3).Done?
      ensures ok ==> Installed(kernel, SERVING, name)
      ensures !world.ip(old(clock) + 2).Done? ==> View(kernel, SERVING).0 <= old(View(kernel, SERVING).0)
      ensures world.ip(old(clock) + 2).Done? && !ok && world.ip(old(clock) + 5).Done? ==> View(kernel, SERVING).1 == None
    {
      ClearHostRoute();
      var commands := HostRouteCommands(name);
      ok := RunIP(commands[0]);
      if !ok { return; }
      ok := RunIP(commands[1]);
      if !ok { ClearHostRoute(); return; }
      WhileOpen();
    }

    // ---------- egress.go ----------

    /** Device and InterfaceByName. */
    method FindDevice(found: bool) returns (ok: bool, name: string)
      requires Valid() && at.pc.Looking?
      modifies this
      ensures Valid() && Trail() == old(Trail()) && clock == old(clock)
      ensures at.pc == if ok then Installing(old(at.pc.i), name, 0) else Clearing(old(at.pc.i), Failure)
    {
      Bounds();
      name := processes[tun.value].device;
      Note(Connect(Looked(found)));
      ok := name != "" && found;
    }

    method OpenEgress(name: string)
      requires Valid() && at.pc.Publishing? && at.pc.device == name
      modifies this
      ensures Valid() && Trail() == old(Trail()) && at.pc == Settling(old(at.pc.i))
    {
      var k := Ask();
      PublishStep(c, at);
      device, ready := name, true;
      Note(Drive(Published));
    }

    method CloseEgress()
      requires Valid() && at.pc.Clearing?
      modifies this
      ensures Valid() && Trail() == old(Trail()) && at.pc == Deleting(old(at.pc.i), old(at.pc.why), 0)
    {
      var k := Ask();
      ClearStep(c, at);
      ready, device := false, "";
      Note(Drive(Cleared));
    }

    /** Configure, host mode: open only with a named, existing device and an installed route. */
    method Configure(found: bool) returns (ok: bool)
      requires Valid() && at.pc.Looking?
      modifies this
      ensures Valid() && Trail() == old(Trail())
      ensures at.pc == if ok then Settling(old(at.pc.i)) else Clearing(old(at.pc.i), Failure)
    {
      var name: string;
      ok, name := FindDevice(found);
      if !ok { return; }
      ok := SetupHostRoute(name);
      if !ok { return; }
      OpenEgress(name);
    }

    /** stopTunnel: dials are shut out, the kernel is cleaned, the process is reaped. */
    method StopTunnel()
      requires Valid() && at.pc.Clearing?
      modifies this
      ensures Valid() && at.loop.candidates == old(at.loop.candidates) && Shut()
      ensures old(at.pc.why.Failure?) ==> at.pc == Marking(old(at.pc.i)) && Trail() == old(Trail())
      ensures old(at.pc.why.ModeChange?) ==> LeftTheLoop()
    {
      CloseEgress();
      ClearHostRoute();
      var k := Ask();
      Reap();
      AtRest();
    }

    /** The tunnel's Stop, and the end of the pointer to it. */
    method Reap()
      requires Valid() && at.pc.Halting?
      modifies this
      ensures Valid() && at == DoHalt(old(at)) && clock == old(clock)
      ensures at.loop.candidates == old(at.loop.candidates)
      ensures old(at.pc.why.Failure?) ==> at.pc == Marking(old(at.pc.i)) && Trail() == old(Trail())
      ensures old(at.pc.why.ModeChange?) ==> LeftTheLoop()
    {
      Bounds();
      if tun.Some? {
        processes := processes[tun.value := processes[tun.value].(alive := false)];
        tun := None;
      }
      Note(Drive(Halted));
    }

    // ---------- connectAndVerify ----------

    method PrepareFiles() returns (ok: bool)
      requires Valid() && at.pc.Preparing?
      modifies this
      ensures Valid() && Trail() == old(Trail())
      ensures at.pc == if ok then Spawning(old(at.pc.i)) else Marking(old(at.pc.i))
    {
      var k := Ask();
      ok := world.good(k);
      Note(Connect(Prepared(ok)));
    }

    /** The pointer is set before Start, so it stays when Start fails. */
    method StartTunnel() returns (ok: bool)
      requires Valid() && at.pc.Spawning?
      modifies this
      ensures Valid() && Trail() == old(Trail())
      ensures at.pc == if ok then Shaking(old(at.pc.i)) else Marking(old(at.pc.i))
    {
      var k := Ask();
      ok := world.good(k);
      tun, processes := Some(|processes|), processes + [Process(ok, false, "", {})];
      Note(Connect(Spawned(ok)));
    }

    method WaitHandshake() returns (ok: bool)
      requires Valid() && at.pc.Shaking?
      modifies this
      ensures Valid() && Trail() == old(Trail())
      ensures at.pc == if ok then Looking(old(at.pc.i)) else Clearing(old(at.pc.i), Failure)
    {
      var k := Ask();
      Bounds();
      ok := processes[tun.value].shaken && world.good(k);
      Note(Connect(Shook(ok)));
    }

    method Settle()
      requires Valid() && at.pc.Settling?
      modifies this
      ensures Valid() && Trail() == old(Trail()) && clock == old(clock) + 1
      ensures at.pc == if c.tries < 1 then Clearing(old(at.pc.i), Failure) else Probing(old(at.pc.i), 0)
    {
      var k := Ask();
      Note(Connect(Settled));
    }

    /** One initial probe and the pause after it. */
    method ProbeOnce() returns (healthy: bool)
      requires Valid() && at.pc.Probing?
      modifies this
      ensures Valid() && Trail() == old(Trail()) && clock == old(clock) + 1 && healthy == world.good(old(clock))
      ensures var i, t := old(at.pc.i), old(at.pc.t);
        at.pc == if healthy then Watching(i, 0) else if t + 1 < c.tries then Probing(i, t + 1) else Clearing(i, Failure)
    {
      var k := Ask();
      healthy := world.good(k);
      Note(Connect(Probed(healthy)));
    }

    /** None of these questions is answered well. */
    ghost predicate Unhealthy(first: nat, end: nat) { forall n :: first <= n < end ==> !world.good(n) }

    function Tries(): nat { if c.tries < 1 then 0 else c.tries }

    /** The settling pause and at most InitialProbeTries probes, until one is healthy. */
    method ProbeTunnel() returns (ok: bool)
      requires Valid() && at.pc.Settling?
      modifies this
      ensures Valid() && Trail() == old(Trail())
      ensures at.pc == if ok then Watching(old(at.pc.i), 0) else Clearing(old(at.pc.i), Failure)
      ensures ok <==> !Unhealthy(old(clock) + 1, old(clock) + 1 + Tries())
    {
      ghost var i, base := at.pc.i, clock + 1;
      Settle();
      for tried := 0 to Tries()
        invariant Valid() && Trail() == old(Trail()) && clock == base + tried && Unhealthy(base, clock)
        invariant at.pc == if tried < c.tries then Probing(i, tried) else Clearing(i, Failure)
      {
        ok := ProbeOnce();
        if ok { return; }
      }
      ok := false;
    }

    /** connectAndVerify: on success the tunnel is watched, on failure it has been taken down. */
    method ConnectAndVerify() returns (ok: bool)
      requires Valid() && at.pc.Preparing?
      modifies this
      ensures Valid() && at.loop.candidates == old(at.loop.candidates)
      ensures at.pc == if ok then Watching(old(at.pc.i), 0) else Marking(old(at.pc.i))
      ensures ok ==> ready && FailClosed(Snapshot(device, ready, kernel))
      ensures !ok ==> Shut()
    {
      ok := PrepareFiles();
      if !ok { AtRest(); return; }
      ok := StartTunnel();
      if !ok { AtRest(); return; }
      ok := UseTunnel();
      if !ok { StopTunnel(); } else { WhileOpen(); }
    }

    /** The part of connectAndVerify every failure of which stops the tunnel. */
    method UseTunnel() returns (ok: bool)
      requires Valid() && at.pc.Shaking?
      modifies this
      ensures Valid() && Trail() == old(Trail())
      ensures at.pc == if ok then Watching(old(at.pc.i), 0) else Clearing(old(at.pc.i), Failure)
    {
      ok := WaitHandshake();
      if !ok { return; }
      var k := Ask();
      ok := Configure(world.good(k));
      if !ok { return; }
      ok := ProbeTunnel();
    }

    // ---------- monitor ----------

    /** The channel, the tunnel or the tickers deliver this round now. */
    method Delivers(r: Monitor.Round) returns (yes: bool)
      requires Valid() && at.pc.Watching?
      ensures yes <==> Enabled(at, Connect(Watched(r)))
    {
      Bounds();
      match r {
        case Done => yes := false;
        case EventsClosed => yes := false;
        case ModeToken => yes := modeCh;
        case Exited(_) => yes := !processes[tun.value].alive;
        case _ => yes := true;
      }
    }

    /** One round of monitor, with its local counter; the reason if it ends the loop. */
    method OneRound(r: Monitor.Round, fails: nat) returns (why: Option<Monitor.Reason>, left: nat)
      requires Valid() && at.pc.Watching? && at.pc.fails == fails && Enabled(at, Connect(Watched(r)))
      modifies this
      ensures Valid() && Trail() == old(Trail()) && clock == old(clock)
      ensures why.None? ==> Monitor.Step(fails, r, c.maxFails) == Monitor.GoOn(left) && at.pc == Watching(old(at.pc.i), left)
      ensures why.Some? ==> Monitor.Step(fails, r, c.maxFails) == Monitor.Leave(why.value)
      ensures why.Some? ==> at.pc == Clearing(old(at.pc.i), if why.value.ModeChanged? then ModeChange else Failure)
    {
      why, left := None, fails;
      match r {
        case Done => why := Some(Monitor.ContextEnded);
        case EventsClosed => why := Some(Monitor.ChannelClosed);
        case ModeToken => modeCh := false; why := Some(Monitor.ModeChanged);
        case Exited(line) => why := Some(Monitor.TunnelExited(line));
        case Output =>
        case Latency =>
        case Probe(healthy) =>
          if healthy {
            left := 0;
          } else {
            left := fails + 1;
            if left >= c.maxFails { why := Some(Monitor.Degraded); }
          }
      }
      Note(Connect(Watched(r)));
    }

    /**
     monitor, for at most so many rounds; it is still watching if there is no reason. The rounds it
     was delivered, `seen`, end at the first final one or the first that completes a failing suffix of
     HealthMaxFails, and that one gives the reason.
     */
    method Watch(rounds: nat) returns (why: Option<Monitor.Reason>, ghost seen: seq<Monitor.Round>)
      requires Valid() && at.pc.Watching? && at.pc.fails == 0
      modifies this
      ensures Valid() && Trail() == old(Trail())
      ensures why.None? ==> at.pc.Watching? && Monitor.Running(seen, c.maxFails)
      ensures why.Some? ==>
        && at.pc == Clearing(old(at.pc.i), if why.value.ModeChanged? then ModeChange else Failure)
        && seen != [] && why.value == Monitor.ReasonOf(seen[|seen| - 1])
        && Monitor.Running(seen[..|seen| - 1], c.maxFails) && !Monitor.Running(seen, c.maxFails)
    {
      ghost var i := at.pc.i;
      var fails := 0;
      seen, why := [], None;
      for n := 0 to rounds
        invariant Valid() && Trail() == old(Trail()) && at.pc == Watching(i, fails) && why.None?
        invariant Monitor.Running(seen, c.maxFails)
        invariant fails == Monitor.FailingSuffix(Monitor.Probes(seen)) < Monitor.Limit(c.maxFails)
      {
        var k := Ask();
        var r := world.round(k);
        var now := Delivers(r);
        if now {
          Monitor.CounterIsFailingSuffix(seen, r, c.maxFails);
          Monitor.RunningAppend(seen, r, c.maxFails);
          assert (seen + [r])[..|seen|] == seen;
          seen := seen + [r];
          why, fails := OneRound(r, fails);
          if why.Some? { return; }
        }
      }
    }

    // ---------- connectLoop ----------

    method MarkBlacklisted(n: Route.Node)
      requires Valid() && at.pc.Marking? && at.pc.i < |at.loop.candidates| && at.loop.candidates[at.pc.i] == n
      modifies this
      ensures Valid() && at.loop.candidates == old(at.loop.candidates) && at.pc == Turning(old(at.pc.i) + 1)
    {
      var k := Ask();
      Bounds();
      blacklist := blacklist + {n.host};
      Note(Run(MarkedNode));
    }

    /** The test at the top of a turn: isBlacklisted, and isFixedNode only then. */
    method Skips(n: Route.Node) returns (skip: bool)
      requires Valid() && at.pc.Turning? && at.pc.i < |at.loop.candidates| && at.loop.candidates[at.pc.i] == n
      modifies this
      ensures Valid() && at.loop.candidates == old(at.loop.candidates)
      ensures at.pc == if skip then Turning(old(at.pc.i) + 1) else Preparing(old(at.pc.i))
    {
      var k := Ask();
      skip := n.host in blacklist;
      Note(Run(CheckedBlacklist));
      if skip {
        k := Ask();
        skip := !Route.IsFixed(n, route);
        Note(Run(CheckedFixed));
      }
    }

    /** One turn of connectLoop. */
    method TakeTurn(n: Route.Node, rounds: nat) returns (end: TurnEnd)
      requires Valid() && at.pc.Turning? && at.pc.i < |at.loop.candidates| && at.loop.candidates[at.pc.i] == n
      modifies this
      ensures Valid() && at.loop.candidates == old(at.loop.candidates)
      ensures end.NextTurn? ==> at.pc == Turning(old(at.pc.i) + 1)
      ensures end.LoopOver? ==> Ends(end.end) && !end.end.Exhausted?
    {
      var skip := Skips(n);
      if skip { return NextTurn; }
      var ok := ConnectAndVerify();
      if !ok {
        MarkBlacklisted(n);
        return NextTurn;
      }
      end := WatchUntilLost(n, rounds);
    }

    /** The rest of a turn whose tunnel came up. */
    method WatchUntilLost(n: Route.Node, rounds: nat) returns (end: TurnEnd)
      requires Valid() && at.pc.Watching? && at.pc.fails == 0
      requires at.pc.i < |at.loop.candidates| && at.loop.candidates[at.pc.i] == n
      modifies this
      ensures Valid() && at.loop.candidates == old(at.loop.candidates)
      ensures end.NextTurn? ==> at.pc == Turning(old(at.pc.i) + 1)
      ensures end.LoopOver? ==> Ends(end.end) && !end.end.Exhausted?
    {
      ghost var seen;
      var why;
      why, seen := Watch(rounds);
      if why.None? { return LoopOver(StillWatching); }
      StopTunnel();
      if why.value.ModeChanged? { return LoopOver(RouteChanged); }
      MarkBlacklisted(n);
      end := NextTurn;
    }

    /** Where the protocol stands when connectLoop ends like this. */
    ghost predicate Ends(end: LoopEnd) reads this {
      match end
      case Exhausted => at.pc == Turning(|at.loop.candidates|)
      case RouteChanged => LeftTheLoop()
      case StillWatching => at.pc.Watching?
    }

    method TakeTurns(nodes: seq<Route.Node>, rounds: nat) returns (end: LoopEnd)
      requires Valid() && at.pc == Turning(0) && at.loop.candidates == nodes
      modifies this
      ensures Valid() && at.loop.candidates == nodes && Ends(end)
    {
      for n := 0 to |nodes|
        invariant Valid() && at.loop.candidates == nodes && at.pc == Turning(n)
      {
        var turn := TakeTurn(nodes[n], rounds);
        if turn.LoopOver? { return turn.end; }
      }
      end := Exhausted;
    }

    /** What the turns say at the end of connectLoop. */
    lemma Outcome(end: LoopEnd)
      requires Valid() && Ends(end)
      ensures FaithfulTurns(at.loop)
      ensures end.Exhausted? ==>
        && |at.loop.turns| == |at.loop.candidates| && Tried(at.loop.turns) == Failed(at.loop.turns)
        && forall k :: 0 <= k < |at.loop.candidates| ==> Burnt(at, at.loop.candidates[k].host)
      ensures end.RouteChanged? ==>
        Tried(at.loop.turns) == Failed(at.loop.turns) + [at.loop.turns[|at.loop.turns| - 1].node]
    {
      Unlock(c, First(), run, at);
      match end
      case Exhausted => ExhaustedTrace(c, kernel0, route0, blacklist0, run);
      case RouteChanged => ModeExitTrace(c, kernel0, route0, blacklist0, run);
      case StillWatching => Facts(); InvIsFaithful(at);
    }

    /**
     connectLoop, watching each connected tunnel for a bounded number of rounds. When the candidates
     are exhausted each was attempted exactly if it was not blacklisted at its turn or is the route
     node, each attempted one was blacklisted, and each candidate is blacklisted unless restored
     since; on a route change all but the last attempted node were.
     */
    method ConnectLoop(nodes: seq<Route.Node>, rounds: nat) returns (end: LoopEnd)
      requires Valid() && at.pc == Turning(0) && at.loop.candidates == nodes
      modifies this
      ensures Valid() && at.loop.candidates == nodes && Ends(end) && FaithfulTurns(at.loop)
      ensures end.Exhausted? ==>
        && |at.loop.turns| == |nodes| && Tried(at.loop.turns) == Failed(at.loop.turns)
        && forall k :: 0 <= k < |nodes| ==> Burnt(at, nodes[k].host)
      ensures end.RouteChanged? ==>
        at.loop.turns != [] && Tried(at.loop.turns) == Failed(at.loop.turns) + [at.loop.turns[|at.loop.turns| - 1].node]
      ensures !end.StillWatching? ==> Shut()
      ensures end.StillWatching? ==> ready && FailClosed(Snapshot(device, ready, kernel))
    {
      end := TakeTurns(nodes, rounds);
      Outcome(end);
      if end.StillWatching? { WhileOpen(); } else { AtRest(); }
    }

    // ---------- Run ----------

    /** The top of the loop: pending refresh requests are taken back, then the pool is fetched. */
    method Fetch() returns (nodes: seq<Route.Node>)
      requires Valid() && at.pc.Starting?
      modifies this
      ensures Valid() && at.pc == if nodes == [] then Resting else Selecting(nodes)
    {
      var k := Ask();
      refreshReq := false;
      Note(Run(Began));
      k := Ask();
      nodes := world.nodes(k);
      Note(Run(Fetched(nodes)));
    }

    method Choose(nodes: seq<Route.Node>) returns (candidates: seq<Route.Node>)
      requires Valid() && at.pc == Selecting(nodes)
      modifies this
      ensures Valid() && at.pc == if candidates == [] then Resting else Turning(0)
      ensures at.loop.candidates == candidates && candidates == Route.Select(c.letters, nodes, route)
    {
      var k := Ask();
      candidates := Route.SelectCandidates(c.letters, nodes, route);
      Note(Run(Chosen));
    }

    /** wait: false if a refresh request cut the pause short. */
    method Wait() returns (ok: bool)
      requires Valid() && at.pc.Resting?
      modifies this
      ensures Valid() && at.pc == if ok then Starting else Returned
    {
      var k := Ask();
      ok := !(refreshCh && world.good(k));
      if !ok { refreshCh := false; }
      Note(Run(Rested(!ok)));
    }

    /** The candidates are exhausted: Run leaves connectLoop and pauses. */
    method Drift()
      requires Valid() && at.pc == Turning(|at.loop.candidates|)
      modifies this
      ensures Valid() && at.pc == Resting
    {
      var k := Ask();
      Note(Run(CheckedBlacklist));
    }

    /** One cycle of the loop of Run; false if Run has returned or a tunnel is still watched. */
    method Cycle(rounds: nat) returns (on: bool)
      requires Valid() && at.pc.Starting?
      modifies this
      ensures Valid()
      ensures if on then at.pc.Starting? else at.pc.Returned? || at.pc.Watching?
    {
      var nodes := Fetch();
      if nodes == [] {
        on := Wait();
        return;
      }
      var candidates := Choose(nodes);
      if candidates == [] {
        on := Wait();
        return;
      }
      var end := ConnectLoop(candidates, rounds);
      match end {
        case RouteChanged => on := true;
        case StillWatching => on := false;
        case Exhausted => Drift(); on := Wait();
      }
    }

    /**
     Run, for at most so many cycles. It leaves off watching a fail-closed tunnel, or with egress shut
     and no process alive; and it has returned only if somebody asked for a refresh.
     */
    method Supervise(cycles: nat, rounds: nat)
      requires Valid() && at.pc.Starting?
      modifies this
      ensures Valid() && (at.pc.Starting? || at.pc.Returned? || at.pc.Watching?)
      ensures at.pc.Watching? ==> ready && FailClosed(Snapshot(device, ready, kernel))
      ensures !at.pc.Watching? ==> Shut()
      ensures at.pc.Returned? ==> Other(SwapRefresh) in run
    {
      var n, on := 0, true;
      while n < cycles && on
        invariant Valid() && (if on then at.pc.Starting? else at.pc.Returned? || at.pc.Watching?)
        decreases cycles - n
      {
        on := Cycle(rounds);
        n := n + 1;
      }
      WhileOpen();
      if !at.pc.Watching? { AtRest(); }
      Unlock(c, First(), run, at);
      ReturnsStemFromTriggers(c, kernel0, route0, blacklist0, run);
    }
  }

  /** Where clearHostRoute leaves the protocol. */
  function AfterCleanup(pc: Pc): Pc
    requires pc.Installing? || pc.Undoing? || pc.Deleting?
  {
    match pc
    case Installing(i, d, _) => Installing(i, d, 2)
    case Undoing(i, _) => Clearing(i, Failure)
    case Deleting(i, why, _) => Halting(i, why)
  }

  /** A command does to the serving view what it does on any kernel with the same view. */
  lemma SameExec(k: Kernel, l: Kernel, command: Command, o: Outcome)
    requires View(k, SERVING) == View(l, SERVING) && ServingCommand(command)
    ensures View(Exec(k, command, o), SERVING) == View(Exec(l, command, o), SERVING)
  {
  }
}
