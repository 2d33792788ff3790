/**
 The supervisor together with the tunnels it spawns. Every process of the supervisor protocol is a
 run of the tunnel protocol: what a process reports, the signal of its handshake, its end and the
 return of WaitHandshake are one step of both. So what the supervisor relies on are lines that were
 scanned.
 */
module SupervisorTunnel {
  import opened Common
  import opened Egress
  import opened Supervisor
  import opened SupervisorSafety
  import opened SupervisorTrace
  import Lines = Tunnel
  import Route
  import T = TunnelMachine
  import Text

  /** A tunnel: its run so far and where that leads. */
  datatype Tube = Tube(run: seq<T.Action>, state: T.State)

  /** `acts` is the supervisor's part of the schedule; tunnels are numbered as its processes. */
  datatype Joint = Joint(acts: seq<Action>, s: State, tubes: seq<Tube>)

  datatype Move =
    | Apart(a: Action)                            // the supervisor, its callers and the kernel
    | Within(p: nat, b: T.Action)                 // inside one tunnel
    | Report(p: nat, who: nat, line: string)      // a line that reports a device
    | Signal(p: nat, who: nat)                    // the handshake is signalled
    | Die(p: nat, status: string)
    | Spawn(ok: bool)
    | Accept                                      // WaitHandshake takes the token and returns nil
    | Halt                                        // Stop returns

  /** Steps of the supervisor protocol that are also steps of a tunnel. */
  predicate Shared(a: Action) {
    || (a.Connect? && (a.connect.Spawned? || (a.connect.Shook? && a.connect.ok)))
    || (a.Other? && (a.other.Reports? || a.other.Shakes? || a.other.Dies?))
    || (a.Drive? && a.drive.Halted?)
  }

  /** Steps of a tunnel the supervisor protocol need not know. */
  predicate Private(b: T.Action) {
    match b
    case Scan(_, x) => x.Post? || (x.Read? && x.device == "" && Lines.FaithfulRead(x))
    case Reap(x) => !x.ProcessExits?
    case Wait(x) => !x.TakeToken?
    case Own(x) => x.BeginStop? || x.Force?
  }

  predicate Ready(j: Joint, p: nat, b: T.Action) { p < |j.tubes| && T.Enabled(j.tubes[p].state, b) }

  predicate CanAccept(j: Joint) { j.s.pc.Shaking? && Current(j.s) && Ready(j, j.s.tunnel.value, T.Wait(T.TakeToken)) }

  function ReadBy(who: nat, line: string): T.Action { T.Scan(who, Lines.ReadStep(line)) }

  predicate CanMove(j: Joint, m: Move) {
    match m
    case Apart(a) => Enabled(j.s, a) && !Shared(a)
    case Within(p, b) => Ready(j, p, b) && Private(b)
    case Report(p, who, line) => Ready(j, p, ReadBy(who, line)) && Lines.DeviceOf(line) != "" && p < |j.s.processes|
    case Signal(p, who) => Ready(j, p, T.Scan(who, T.Signal)) && p < |j.s.processes|
    case Die(p, status) => Ready(j, p, T.Reap(T.ProcessExits(status))) && AliveAt(j.s, p)
    case Spawn(_) => j.s.pc.Spawning?
    case Accept => CanAccept(j) && j.s.processes[j.s.tunnel.value].shaken
    case Halt => j.s.pc.Halting? && Current(j.s) && Ready(j, j.s.tunnel.value, T.Own(T.StopReturns))
  }

  function Sup(c: Settings, j: Joint, a: Action): Joint
    requires Enabled(j.s, a)
  {
    j.(acts := j.acts + [a], s := Do(c, j.s, a))
  }

  function Tun(j: Joint, p: nat, b: T.Action): Joint
    requires Ready(j, p, b)
  {
    j.(tubes := j.tubes[p := Tube(j.tubes[p].run + [b], T.Do(j.tubes[p].state, b))])
  }

  function Born(ok: bool): Tube { Tube([T.Own(T.Start(ok))], T.DoOwn(T.Init(), T.Start(ok))) }

  function Moved(c: Settings, j: Joint, m: Move): Joint
    requires CanMove(j, m)
  {
    match m
    case Apart(a) => Sup(c, j, a)
    case Within(p, b) => Tun(j, p, b)
    case Report(p, who, line) => Sup(c, Tun(j, p, ReadBy(who, line)), Other(Reports(p, Lines.DeviceOf(line))))
    case Signal(p, who) => Sup(c, Tun(j, p, T.Scan(who, T.Signal)), Other(Shakes(p)))
    case Die(p, status) => Sup(c, Tun(j, p, T.Reap(T.ProcessExits(status))), Other(Dies(p)))
    case Spawn(ok) => Sup(c, j, Connect(Spawned(ok))).(tubes := j.tubes + [Born(ok)])
    case Accept => Sup(c, Tun(j, j.s.tunnel.value, T.Wait(T.TakeToken)), Connect(Shook(true)))
    case Halt => Sup(c, Tun(j, j.s.tunnel.value, T.Own(T.StopReturns)), Drive(Halted))
  }

  function Play(c: Settings, first: Joint, moves: seq<Move>): Option<Joint> {
    if moves == [] then Some(first)
    else
      var before := Play(c, first, moves[..|moves| - 1]);
      var last := moves[|moves| - 1];
      if before.Some? && CanMove(before.value, last) then Some(Moved(c, before.value, last)) else None
  }

  // ---------- what every move keeps ----------

  /** The state of a tube is where its run leads, and its lines were read as they are. */
  ghost predicate Sound(t: Tube) {
    (forall k {:trigger Key(k)} :: Key(k) ==> T.Exec(t.run) == Some(t.state)) && Lines.Faithful(t.run)
  }

  lemma SoundRun(t: Tube)
    requires Sound(t)
    ensures T.Exec(t.run) == Some(t.state) && Lines.Faithful(t.run)
  {
    assert Key(0);
  }

  lemma SoundStep(t: Tube, b: T.Action)
    requires Sound(t) && T.Enabled(t.state, b) && (b.Scan? && b.scan.Read? ==> Lines.FaithfulRead(b.scan))
    ensures Sound(Tube(t.run + [b], T.Do(t.state, b)))
  {
    SoundRun(t);
    T.ExecStep(t.run, b);
  }

  /** Some line read so far was noted with the device. */
  predicate Noted(log: seq<T.Happening>, device: string) {
    exists h :: h in log && h.HasRead? && h.device == device
  }

  /** A tube and the process that stands for it agree. */
  ghost predicate Agrees(t: Tube, p: Process) {
    && Sound(t)
    && (p.alive <==> t.state.reaper.Alive?)
    && (T.HasSignalled in t.state.log ==> p.shaken)
    && (forall d :: d in p.reported ==> Noted(t.state.log, d))
  }

  ghost predicate JointInv(c: Settings, first: State, j: Joint) {
    && SafeInv(j.s) && LedTo(c, first, j.acts, j.s)
    && |j.tubes| == |j.s.processes|
    && (forall p :: 0 <= p < |j.tubes| ==> Agrees(j.tubes[p], j.s.processes[p]))
    && (Trusted(j.s) ==> T.HasWaited(T.Up) in j.tubes[|j.tubes| - 1].state.log)
  }

  /** The supervisor goes by the handshake of the latest process. */
  predicate Trusted(s: State) { s.processes != [] && (PastHandshake(s.pc) || (HasTunnel(s.pc) && s.egress.ready)) }

  lemma LogGrows(s: T.State, b: T.Action)
    requires T.Enabled(s, b)
    ensures forall h :: h in s.log ==> h in T.Do(s, b).log
    ensures T.HasSignalled in T.Do(s, b).log ==> T.HasSignalled in s.log || (b.Scan? && b.scan.Signal?)
    ensures b.Scan? && b.scan.Read? ==> T.HasRead(b.scan.line, b.scan.kind, b.scan.device) in T.Do(s, b).log
    ensures b == T.Wait(T.TakeToken) ==> T.HasWaited(T.Up) in T.Do(s, b).log
    ensures !(b.Own? && b.own.Start?) ==>
      (T.Do(s, b).reaper.Alive? <==> s.reaper.Alive? && !(b.Reap? && b.reap.ProcessExits?))
  {
    match b
    case Scan(who, x) => ScanGrows(s, who, x);
    case Reap(x) =>
    case Wait(x) => WaitGrows(s, x);
    case Own(x) =>
  }

  lemma WaitGrows(s: T.State, x: T.WaitStep)
    requires T.WaitEnabled(s, x)
    ensures forall h :: h in s.log ==> h in T.DoWait(s, x).log
    ensures T.HasSignalled in T.DoWait(s, x).log ==> T.HasSignalled in s.log
    ensures x.TakeToken? ==> T.HasWaited(T.Up) in T.DoWait(s, x).log
    ensures T.DoWait(s, x).reaper == s.reaper
  {
  }

  lemma ScanGrows(s: T.State, who: nat, x: T.ScanStep)
    requires T.ScanEnabled(s, who, x)
    ensures forall h :: h in s.log ==> h in T.DoScan(s, who, x).log
    ensures T.HasSignalled in T.DoScan(s, who, x).log ==> T.HasSignalled in s.log || x.Signal?
    ensures x.Read? ==> T.HasRead(x.line, x.kind, x.device) in T.DoScan(s, who, x).log
    ensures T.DoScan(s, who, x).reaper == s.reaper
  {
  }

  lemma TubeAgrees(t: Tube, p: Process, b: T.Action, q: Process)
    requires Agrees(t, p) && T.Enabled(t.state, b) && (b.Scan? && b.scan.Read? ==> Lines.FaithfulRead(b.scan))
    requires !(b.Own? && b.own.Start?) && (q.alive <==> p.alive && !(b.Reap? && b.reap.ProcessExits?))
    requires p.shaken || (b.Scan? && b.scan.Signal?) ==> q.shaken
    requires forall d :: d in q.reported ==> d in p.reported || (b.Scan? && b.scan.Read? && b.scan.device == d)
    ensures Agrees(Tube(t.run + [b], T.Do(t.state, b)), q)
  {
    var u := Tube(t.run + [b], T.Do(t.state, b));
    SoundStep(t, b);
    LogGrows(t.state, b);
    forall d | d in q.reported ensures Noted(u.state.log, d) {
      if d in p.reported {
        var h :| h in t.state.log && h.HasRead? && h.device == d;
        assert h in u.state.log;
      } else {
        assert T.HasRead(b.scan.line, b.scan.kind, b.scan.device) in u.state.log;
      }
    }
  }

  /** A tunnel step, with what it does to the process that stands for the tunnel. */
  lemma TunKeeps(c: Settings, first: State, j: Joint, p: nat, b: T.Action, s: State, acts: seq<Action>)
    requires JointInv(c, first, j) && Ready(j, p, b) && (b.Scan? && b.scan.Read? ==> Lines.FaithfulRead(b.scan))
    requires SafeInv(s) && LedTo(c, first, acts, s) && |s.processes| == |j.s.processes|
    requires forall q :: 0 <= q < |s.processes| && q != p ==> s.processes[q] == j.s.processes[q]
    requires !(b.Own? && b.own.Start?)
    requires s.processes[p].alive <==> j.s.processes[p].alive && !(b.Reap? && b.reap.ProcessExits?)
    requires j.s.processes[p].shaken || (b.Scan? && b.scan.Signal?) ==> s.processes[p].shaken
    requires forall d :: d in s.processes[p].reported ==> d in j.s.processes[p].reported || (b.Scan? && b.scan.Read? && b.scan.device == d)
    requires Trusted(s) ==> Trusted(j.s) || (p == |s.processes| - 1 && b == T.Wait(T.TakeToken))
    ensures JointInv(c, first, Joint(acts, s, Tun(j, p, b).tubes))
  {
    TubeAgrees(j.tubes[p], j.s.processes[p], b, s.processes[p]);
    UpIsKept(j.tubes[p].state, b);
    var tubes := Tun(j, p, b).tubes;
    forall q | 0 <= q < |tubes| ensures Agrees(tubes[q], s.processes[q]) {
      if q != p { assert tubes[q] == j.tubes[q] && Agrees(j.tubes[q], j.s.processes[q]); }
    }
  }

  /** A successful wait stays in the log, and taking the token puts it there. */
  lemma UpIsKept(s: T.State, b: T.Action)
    requires T.Enabled(s, b)
    ensures T.HasWaited(T.Up) in s.log || b == T.Wait(T.TakeToken) ==> T.HasWaited(T.Up) in T.Do(s, b).log
  {
    LogGrows(s, b);
  }

  /** What the unshared steps of the supervisor protocol leave alone. */
  lemma ApartKeeps(c: Settings, s: State, a: Action)
    requires SafeInv(s) && Enabled(s, a) && !Shared(a)
    ensures var t := Do(c, s, a);
      t.processes == s.processes && (Trusted(t) ==> Trusted(s))
  {
    match a
    case Run(x) =>
    case Connect(x) =>
    case Drive(x) => DriveKeepsTrust(s, x);
    case Other(x) =>
  }

  lemma DriveKeepsTrust(s: State, x: EgressStep)
    requires SafeInv(s) && DriveEnabled(s, x)
    ensures !x.Halted? ==> DoDrive(s, x).processes == s.processes
    ensures Trusted(DoDrive(s, x)) ==> Trusted(s)
  {
  }

  lemma ApartInv(c: Settings, first: State, j: Joint, a: Action)
    requires JointInv(c, first, j) && Enabled(j.s, a) && !Shared(a)
    ensures JointInv(c, first, Sup(c, j, a))
  {
    SafeStep(c, j.s, a);
    LedStep(c, first, j.acts, j.s, a);
    ApartKeeps(c, j.s, a);
  }

  lemma BornIsSound(ok: bool)
    ensures Sound(Born(ok)) && T.HasSignalled !in Born(ok).state.log && (Born(ok).state.reaper.Alive? <==> ok)
  {
    T.ExecStep([], T.Own(T.Start(ok)));
    assert [] + [T.Own(T.Start(ok))] == [T.Own(T.Start(ok))];
  }

  lemma SpawnInv(c: Settings, first: State, j: Joint, ok: bool)
    requires JointInv(c, first, j) && j.s.pc.Spawning?
    ensures JointInv(c, first, Moved(c, j, Spawn(ok)))
  {
    SafeStep(c, j.s, Connect(Spawned(ok)));
    LedStep(c, first, j.acts, j.s, Connect(Spawned(ok)));
    BornIsSound(ok);
  }

  lemma MoveKeepsInv(c: Settings, first: State, j: Joint, m: Move)
    requires JointInv(c, first, j) && CanMove(j, m)
    ensures JointInv(c, first, Moved(c, j, m))
  {
    match m
    case Apart(a) => ApartInv(c, first, j, a);
    case Within(p, b) => TunKeeps(c, first, j, p, b, j.s, j.acts);
    case Report(p, who, line) => BothInv(c, first, j, p, ReadBy(who, line), Other(Reports(p, Lines.DeviceOf(line))));
    case Signal(p, who) => BothInv(c, first, j, p, T.Scan(who, T.Signal), Other(Shakes(p)));
    case Die(p, status) => BothInv(c, first, j, p, T.Reap(T.ProcessExits(status)), Other(Dies(p)));
    case Spawn(ok) => SpawnInv(c, first, j, ok);
    case Accept => AcceptInv(c, first, j);
    case Halt => HaltInv(c, first, j);
  }

  lemma ReapedIsDead(t: Tube, p: Process)
    requires Agrees(t, p) && T.Enabled(t.state, T.Own(T.StopReturns))
    ensures !p.alive
  {
  }

  lemma HaltedFrame(s: State)
    requires SafeInv(s) && s.pc.Halting? && Current(s) && !s.processes[s.tunnel.value].alive
    ensures DoHalt(s).processes == s.processes && (Trusted(DoHalt(s)) ==> Trusted(s))
  {
    DriveKeepsTrust(s, Halted);
  }

  /** When Stop returns the process has long ended, so reaping it changes nothing. */
  lemma HaltInv(c: Settings, first: State, j: Joint)
    requires JointInv(c, first, j) && CanMove(j, Halt)
    ensures JointInv(c, first, Moved(c, j, Halt))
    ensures !j.s.processes[j.s.tunnel.value].alive
  {
    var p, a := j.s.tunnel.value, Drive(Halted);
    ReapedIsDead(j.tubes[p], j.s.processes[p]);
    SafeStep(c, j.s, a);
    LedStep(c, first, j.acts, j.s, a);
    HaltedFrame(j.s);
    TunKeeps(c, first, j, p, T.Own(T.StopReturns), Do(c, j.s, a), j.acts + [a]);
  }

  /** A step of both: something that happens to a process. */
  lemma BothInv(c: Settings, first: State, j: Joint, p: nat, b: T.Action, a: Action)
    requires JointInv(c, first, j) && Ready(j, p, b) && a.Other? && Enabled(j.s, a)
    requires b.Scan? && b.scan.Read? ==> Lines.FaithfulRead(b.scan)
    requires
      || (b.Scan? && b.scan.Read? && a == Other(Reports(p, b.scan.device)))
      || (b.Scan? && b.scan.Signal? && a == Other(Shakes(p)))
      || (b.Reap? && b.reap.ProcessExits? && a == Other(Dies(p)))
    ensures JointInv(c, first, Sup(c, Tun(j, p, b), a))
  {
    SafeStep(c, j.s, a);
    LedStep(c, first, j.acts, j.s, a);
    TunKeeps(c, first, j, p, b, Do(c, j.s, a), j.acts + [a]);
  }

  lemma AcceptInv(c: Settings, first: State, j: Joint)
    requires JointInv(c, first, j) && CanMove(j, Accept)
    ensures JointInv(c, first, Moved(c, j, Accept))
  {
    var a := Connect(Shook(true));
    SafeStep(c, j.s, a);
    LedStep(c, first, j.acts, j.s, a);
    TunKeeps(c, first, j, j.s.tunnel.value, T.Wait(T.TakeToken), Do(c, j.s, a), j.acts + [a]);
  }

  lemma {:induction false} PlayKeepsInv(c: Settings, first: State, j: Joint, moves: seq<Move>)
    requires JointInv(c, first, j) && Play(c, j, moves).Some?
    ensures JointInv(c, first, Play(c, j, moves).value)
  {
    if moves != [] {
      PlayKeepsInv(c, first, j, moves[..|moves| - 1]);
      MoveKeepsInv(c, first, Play(c, j, moves[..|moves| - 1]).value, moves[|moves| - 1]);
    }
  }

  // ---------- what the supervisor relies on ----------

  function Begin(kernel: Kernel, route: Route.Config, blacklist: set<Host>): Joint {
    Joint([], Init(kernel, route, blacklist), [])
  }

  lemma BeginInv(c: Settings, kernel: Kernel, route: Route.Config, blacklist: set<Host>)
    requires OnlyReserved(kernel)
    ensures JointInv(c, Init(kernel, route, blacklist), Begin(kernel, route, blacklist))
  {
    InitInv(kernel, route, blacklist);
  }

  /**
     The supervisor's part of any joint schedule is a schedule of its own protocol, and its guard on
     the handshake assumes nothing: when the tunnel offers the token its process has been shaken.
   */
  lemma {:induction false} GuardIsNoAssumption(c: Settings, kernel: Kernel, route: Route.Config, blacklist: set<Host>, moves: seq<Move>)
    requires OnlyReserved(kernel) && Play(c, Begin(kernel, route, blacklist), moves).Some?
    ensures var j := Play(c, Begin(kernel, route, blacklist), moves).value;
      && Schedule(c, Init(kernel, route, blacklist), j.acts) == Some(j.s)
      && (CanAccept(j) ==> CanMove(j, Accept))
  {
    BeginInv(c, kernel, route, blacklist);
    PlayKeepsInv(c, Init(kernel, route, blacklist), Begin(kernel, route, blacklist), moves);
    var j := Play(c, Begin(kernel, route, blacklist), moves).value;
    Unlock(c, Init(kernel, route, blacklist), j.acts, j.s);
    if CanAccept(j) { TokenMeansShaken(j.tubes[j.s.tunnel.value], j.s.processes[j.s.tunnel.value]); }
  }

  lemma TokenMeansShaken(t: Tube, p: Process)
    requires Agrees(t, p) && t.state.token
    ensures p.shaken
  {
    SoundRun(t);
    T.TokenMeansHandshake(t.run);
    SignalIsLogged(t.state.log);
  }

  lemma {:induction false} SignalIsLogged(log: seq<T.Happening>)
    requires T.SignalledSinceTake(log)
    ensures T.HasSignalled in log
  {
    if log[|log| - 1] != T.HasSignalled { SignalIsLogged(log[..|log| - 1]); }
  }

  /** What was scanned on a tunnel that vouches for a device. */
  ghost predicate Vouches(t: Tube, device: string) {
    && T.Exec(t.run) == Some(t.state)
    && (exists line :: Lines.Scanned(t.state.log, line) && Lines.Says(line, "initialization sequence completed"))
    && Lines.IsTunnelDevice(device)
    && exists line :: Lines.Scanned(t.state.log, line) && Lines.Reported(line) == Some(device)
  }

  /**
     In every reachable joint state that lets dials through, they leave by a device that is a plain
     interface name reported by a scanned line of the tunnel the supervisor holds, and a line of that
     tunnel said that its handshake was complete.
   */
  lemma {:induction false} OpenMeansScanned(c: Settings, kernel: Kernel, route: Route.Config, blacklist: set<Host>, moves: seq<Move>)
    requires OnlyReserved(kernel) && Play(c, Begin(kernel, route, blacklist), moves).Some?
    ensures var j := Play(c, Begin(kernel, route, blacklist), moves).value;
      j.s.egress.ready ==>
        && Devices(j.s.egress.kernel, SERVING.mark) == {j.s.egress.device}
        && j.s.tunnel.Some? && j.s.tunnel.value < |j.tubes|
        && Vouches(j.tubes[j.s.tunnel.value], j.s.egress.device)
  {
    BeginInv(c, kernel, route, blacklist);
    PlayKeepsInv(c, Init(kernel, route, blacklist), Begin(kernel, route, blacklist), moves);
    var j := Play(c, Begin(kernel, route, blacklist), moves).value;
    if j.s.egress.ready {
      MarkLeadsToDevice(j.s.egress.kernel, SERVING, j.s.egress.device);
      TrustedVouches(j.tubes[j.s.tunnel.value], j.s.processes[j.s.tunnel.value], j.s.egress.device);
    }
  }

  lemma TrustedVouches(t: Tube, p: Process, device: string)
    requires Agrees(t, p) && T.HasWaited(T.Up) in t.state.log && device in p.reported && device != ""
    ensures Vouches(t, device)
  {
    SoundRun(t);
    var line := Lines.NilOnlyAfterHandshake(t.run);
    Lines.NotesAreFaithful(t.run);
    var h :| h in t.state.log && h.HasRead? && h.device == device;
    assert Lines.FaithfulNote(h) && h == T.HasRead(h.line, h.kind, h.device);
    assert Lines.Scanned(t.state.log, h.line) && Lines.Reported(h.line) == Some(device);
    Lines.FirstDeviceIsDevice(Text.Fields(h.line));
  }

  /** Outside an attempt no openvpn process of any tunnel is running; during one only the latest can be. */
  lemma {:induction false} NoStrayProcess(c: Settings, kernel: Kernel, route: Route.Config, blacklist: set<Host>, moves: seq<Move>, p: nat)
    requires OnlyReserved(kernel) && Play(c, Begin(kernel, route, blacklist), moves).Some?
    requires p < |Play(c, Begin(kernel, route, blacklist), moves).value.tubes|
    ensures var j := Play(c, Begin(kernel, route, blacklist), moves).value;
      j.tubes[p].state.reaper.Alive? ==> HasTunnel(j.s.pc) && p == |j.tubes| - 1
  {
    BeginInv(c, kernel, route, blacklist);
    PlayKeepsInv(c, Init(kernel, route, blacklist), Begin(kernel, route, blacklist), moves);
    var j := Play(c, Begin(kernel, route, blacklist), moves).value;
    assert Agrees(j.tubes[p], j.s.processes[p]);
  }
}
