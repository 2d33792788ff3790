/**
 stopTunnel always gets through: from every point of it that can be reached, its own steps and those
 of the process it stops lead to its end, and nobody else can put that end further away.
 */
module SupervisorStop {
  import opened Common
  import opened Egress
  import opened Supervisor
  import opened SupervisorSafety
  import opened SupervisorTrace
  import opened SupervisorTunnel
  import Lines = Tunnel
  import Route
  import T = TunnelMachine

  predicate Stopping(pc: Pc) { pc.Clearing? || pc.Deleting? || pc.Halting? }

  // ---------- a tunnel in an attempt has been started ----------

  predicate Launched(j: Joint) { HasTunnel(j.s.pc) ==> j.tubes != [] && !j.tubes[|j.tubes| - 1].state.reaper.Unborn? }

  lemma OnlyStartGivesBirth(s: T.State, b: T.Action)
    requires T.Enabled(s, b) && !(b.Own? && b.own.Start?)
    ensures T.Do(s, b).reaper.Unborn? <==> s.reaper.Unborn?
  {
  }

  /** What other goroutines do leaves program counter, tunnel and the number of processes alone. */
  lemma OtherStays(s: State, x: OtherStep)
    requires OtherEnabled(s, x)
    ensures var t := DoOther(s, x); t.pc == s.pc && t.tunnel == s.tunnel && |t.processes| == |s.processes|
  {
  }

  lemma RunHasNoTunnel(c: Settings, s: State, x: RunStep)
    requires RunEnabled(s, x)
    ensures !HasTunnel(s.pc) && !HasTunnel(DoRun(c, s, x).pc)
  {
  }

  lemma ConnectHasTunnel(c: Settings, s: State, x: ConnectStep)
    requires ConnectEnabled(s, x) && !x.Spawned?
    ensures HasTunnel(DoConnect(c, s, x).pc) ==> HasTunnel(s.pc)
  {
  }

  lemma DriveHasTunnel(s: State, x: EgressStep)
    requires DriveEnabled(s, x)
    ensures HasTunnel(s.pc) && (x.Halted? ==> !HasTunnel(DoDrive(s, x).pc))
  {
  }

  /** Only a spawn begins the part of an attempt that has a tunnel. */
  lemma ApartLaunched(c: Settings, j: Joint, a: Action)
    requires Launched(j) && Enabled(j.s, a) && !Shared(a)
    ensures Launched(Sup(c, j, a))
  {
    match a
    case Run(x) => RunHasNoTunnel(c, j.s, x);
    case Connect(x) => ConnectHasTunnel(c, j.s, x);
    case Drive(x) => DriveHasTunnel(j.s, x);
    case Other(x) => OtherStays(j.s, x);
  }

  lemma TubeLaunched(j: Joint, p: nat, b: T.Action)
    requires Launched(j) && Ready(j, p, b) && !(b.Own? && b.own.Start?)
    ensures Launched(Tun(j, p, b)) && Tun(j, p, b).s == j.s
  {
    OnlyStartGivesBirth(j.tubes[p].state, b);
  }

  lemma BothLaunched(c: Settings, j: Joint, p: nat, b: T.Action, x: OtherStep)
    requires Launched(j) && Ready(j, p, b) && !(b.Own? && b.own.Start?) && OtherEnabled(j.s, x)
    ensures Launched(Sup(c, Tun(j, p, b), Other(x)))
  {
    TubeLaunched(j, p, b);
    OtherStays(j.s, x);
  }

  lemma SpawnLaunched(c: Settings, j: Joint, ok: bool)
    requires Launched(j) && CanMove(j, Spawn(ok))
    ensures Launched(Moved(c, j, Spawn(ok)))
  {
    assert HasTunnel(Moved(c, j, Spawn(ok)).s.pc) ==> ok;
  }

  lemma AcceptLaunched(c: Settings, j: Joint)
    requires Launched(j) && CanMove(j, Accept)
    ensures Launched(Moved(c, j, Accept))
  {
    TubeLaunched(j, j.s.tunnel.value, T.Wait(T.TakeToken));
  }

  lemma HaltLaunched(c: Settings, j: Joint)
    requires CanMove(j, Halt)
    ensures Launched(Moved(c, j, Halt)) && !HasTunnel(Moved(c, j, Halt).s.pc)
  {
    DriveHasTunnel(j.s, Halted);
  }

  lemma MoveLaunched(c: Settings, j: Joint, m: Move)
    requires Launched(j) && CanMove(j, m)
    ensures Launched(Moved(c, j, m))
  {
    match m
    case Apart(a) => ApartLaunched(c, j, a);
    case Within(p, b) => TubeLaunched(j, p, b);
    case Report(p, who, line) => BothLaunched(c, j, p, ReadBy(who, line), Reports(p, Lines.DeviceOf(line)));
    case Signal(p, who) => BothLaunched(c, j, p, T.Scan(who, T.Signal), Shakes(p));
    case Die(p, status) => BothLaunched(c, j, p, T.Reap(T.ProcessExits(status)), Dies(p));
    case Spawn(ok) => SpawnLaunched(c, j, ok);
    case Accept => AcceptLaunched(c, j);
    case Halt => HaltLaunched(c, j);
  }

  lemma {:induction false} PlayLaunched(c: Settings, first: Joint, moves: seq<Move>)
    requires Launched(first) && Play(c, first, moves).Some?
    ensures Launched(Play(c, first, moves).value)
  {
    if moves != [] {
      PlayLaunched(c, first, moves[..|moves| - 1]);
      MoveLaunched(c, Play(c, first, moves[..|moves| - 1]).value, moves[|moves| - 1]);
    }
  }

  // ---------- how far stopTunnel still is from its end ----------

  function PcRank(pc: Pc): nat {
    match pc
    case Clearing(_, _) => 3
    case Deleting(_, _, k) => if k == 0 then 2 else 1
    case _ => 0
  }

  /** The reaper's way to the closed channel, and the announcement of Stop. */
  function TubeRank(s: T.State): nat { T.ReaperRank(s.reaper) + if s.stopper.Free? then 1 else 0 }

  function StopRank(j: Joint): nat {
    PcRank(j.s.pc) + if Current(j.s) && j.s.tunnel.value < |j.tubes| then TubeRank(j.tubes[j.s.tunnel.value].state) else 0
  }

  /** What the rank relies on, in every reachable state within stopTunnel. */
  predicate InStop(j: Joint) {
    && Stopping(j.s.pc) && Current(j.s) && j.s.tunnel.value < |j.tubes| == |j.s.processes|
    && (j.s.pc.Deleting? ==> j.s.pc.k < 2)
    && var t := j.tubes[j.s.tunnel.value].state;
       !t.reaper.Unborn? && (t.reaper.Alive? <==> j.s.processes[j.s.tunnel.value].alive)
  }

  lemma ReachedInStop(c: Settings, kernel: Kernel, route: Route.Config, blacklist: set<Host>, moves: seq<Move>)
    requires OnlyReserved(kernel) && Play(c, Begin(kernel, route, blacklist), moves).Some?
    requires Stopping(Play(c, Begin(kernel, route, blacklist), moves).value.s.pc)
    ensures InStop(Play(c, Begin(kernel, route, blacklist), moves).value)
  {
    BeginInv(c, kernel, route, blacklist);
    PlayKeepsInv(c, Init(kernel, route, blacklist), Begin(kernel, route, blacklist), moves);
    PlayLaunched(c, Begin(kernel, route, blacklist), moves);
    var j := Play(c, Begin(kernel, route, blacklist), moves).value;
    assert Agrees(j.tubes[j.s.tunnel.value], j.s.processes[j.s.tunnel.value]);
  }

  // ---------- nobody delays it ----------

  /** Nothing takes the reaper or a Stop that waits further from the end. */
  lemma TubeNeverBack(s: T.State, b: T.Action)
    requires T.Enabled(s, b) && !s.reaper.Unborn? && !(b.Own? && b.own.StopReturns?)
    ensures TubeRank(T.Do(s, b)) <= TubeRank(s)
  {
  }

  /** What is left of stopTunnel when a move has been made; nothing once Stop has returned. */
  predicate NotDelayed(j: Joint, k: Joint) {
    Stopping(k.s.pc) ==> Current(k.s) && k.s.tunnel == j.s.tunnel && k.s.tunnel.value < |k.tubes| && StopRank(k) <= StopRank(j)
  }

  lemma DriveStopping(s: State, x: EgressStep)
    requires DriveEnabled(s, x) && !x.Halted? && Stopping(s.pc) && (s.pc.Deleting? ==> s.pc.k < 2)
    ensures var t := DoDrive(s, x);
      Stopping(t.pc) && PcRank(t.pc) < PcRank(s.pc) && t.tunnel == s.tunnel && t.processes == s.processes
  {
  }

  lemma ApartNotDelayed(c: Settings, j: Joint, a: Action)
    requires InStop(j) && Enabled(j.s, a) && !Shared(a)
    ensures NotDelayed(j, Sup(c, j, a)) && Stopping(Sup(c, j, a).s.pc)
  {
    match a
    case Run(x) =>
    case Connect(x) =>
    case Drive(x) => DriveStopping(j.s, x);
    case Other(x) => OtherStays(j.s, x);
  }

  lemma TubeNotDelayed(j: Joint, p: nat, b: T.Action)
    requires InStop(j) && Ready(j, p, b) && !(b.Own? && b.own.StopReturns?)
    ensures NotDelayed(j, Tun(j, p, b)) && Tun(j, p, b).s == j.s
  {
    if p == j.s.tunnel.value { TubeNeverBack(j.tubes[p].state, b); }
  }

  lemma BothNotDelayed(c: Settings, j: Joint, p: nat, b: T.Action, x: OtherStep)
    requires InStop(j) && Ready(j, p, b) && !(b.Own? && b.own.StopReturns?) && OtherEnabled(j.s, x)
    ensures NotDelayed(j, Sup(c, Tun(j, p, b), Other(x))) && Stopping(Sup(c, Tun(j, p, b), Other(x)).s.pc)
  {
    TubeNotDelayed(j, p, b);
    OtherStays(j.s, x);
  }

  lemma MoveNotDelayed(c: Settings, j: Joint, m: Move)
    requires InStop(j) && CanMove(j, m)
    ensures NotDelayed(j, Moved(c, j, m))
    ensures Stopping(Moved(c, j, m).s.pc) <==> !m.Halt?
  {
    match m
    case Apart(a) => ApartNotDelayed(c, j, a);
    case Within(p, b) => TubeNotDelayed(j, p, b);
    case Report(p, who, line) => BothNotDelayed(c, j, p, ReadBy(who, line), Reports(p, Lines.DeviceOf(line)));
    case Signal(p, who) => BothNotDelayed(c, j, p, T.Scan(who, T.Signal), Shakes(p));
    case Die(p, status) => BothNotDelayed(c, j, p, T.Reap(T.ProcessExits(status)), Dies(p));
    case Spawn(_) =>
    case Accept =>
    case Halt => HaltLaunched(c, j);
  }

  /**
   In every reachable joint state within stopTunnel, no move of anyone takes it further from its end,
   and only the return of Stop takes it out.
   */
  lemma {:induction false} NobodyDelaysStop(c: Settings, kernel: Kernel, route: Route.Config, blacklist: set<Host>, moves: seq<Move>, m: Move)
    requires OnlyReserved(kernel) && Play(c, Begin(kernel, route, blacklist), moves).Some?
    requires Stopping(Play(c, Begin(kernel, route, blacklist), moves).value.s.pc)
    requires CanMove(Play(c, Begin(kernel, route, blacklist), moves).value, m)
    ensures var j := Play(c, Begin(kernel, route, blacklist), moves).value; var k := Moved(c, j, m);
      InStop(j) && (Stopping(k.s.pc) <==> !m.Halt?) && NotDelayed(j, k)
  {
    ReachedInStop(c, kernel, route, blacklist, moves);
    MoveNotDelayed(c, Play(c, Begin(kernel, route, blacklist), moves).value, m);
  }

  // ---------- it can always finish ----------

  /** The moves stopTunnel depends on: its own, those of the tunnel's Stop and reaper, the end of the process. */
  predicate Concerned(p: nat, m: Move) {
    match m
    case Apart(a) => a.Drive?
    case Within(q, b) => q == p && (b.Reap? || b == T.Own(T.BeginStop))
    case Die(q, _) => q == p
    case Halt => true
    case _ => false
  }

  lemma NextDrive(c: Settings, j: Joint) returns (m: Move)
    requires InStop(j) && !j.s.pc.Halting?
    ensures CanMove(j, m) && m.Apart? && m.a.Drive?
    ensures PcRank(Moved(c, j, m).s.pc) < PcRank(j.s.pc)
  {
    m := Apart(Drive(if j.s.pc.Clearing? then Cleared else Ip(Done)));
  }

  lemma NextOfTube(c: Settings, j: Joint) returns (m: Move)
    requires InStop(j) && j.s.pc.Halting?
    ensures CanMove(j, m) && Concerned(j.s.tunnel.value, m)
    ensures !m.Halt? ==> Stopping(Moved(c, j, m).s.pc) && StopRank(Moved(c, j, m)) < StopRank(j)
  {
    var p, t := j.s.tunnel.value, j.tubes[j.s.tunnel.value].state;
    m := if t.stopper.Free? then Within(p, T.Own(T.BeginStop))
         else match t.reaper
              case Alive => Die(p, "")
              case Gone(_) => Within(p, T.Reap(T.ReadKilled))
              case Reporting(_) => Within(p, T.Reap(T.ReportExit))
              case Closing => Within(p, T.Reap(T.CloseExit))
              case _ => Halt;
    MoveNotDelayed(c, j, m);
  }

  lemma NextOfStop(c: Settings, j: Joint) returns (m: Move)
    requires InStop(j)
    ensures CanMove(j, m) && Concerned(j.s.tunnel.value, m)
    ensures !m.Halt? ==> Stopping(Moved(c, j, m).s.pc) && StopRank(Moved(c, j, m)) < StopRank(j)
  {
    if j.s.pc.Halting? {
      m := NextOfTube(c, j);
    } else {
      m := NextDrive(c, j);
      MoveNotDelayed(c, j, m);
    }
  }

  /** The moves lead from the start to the joint state; what they do is seen by Unfold only. */
  ghost predicate Reaches(c: Settings, first: Joint, moves: seq<Move>, j: Joint) {
    forall k {:trigger Key(k)} :: Key(k) ==> Play(c, first, moves) == Some(j)
  }

  lemma Unfold(c: Settings, first: Joint, moves: seq<Move>, j: Joint)
    requires Reaches(c, first, moves, j)
    ensures Play(c, first, moves) == Some(j)
  {
    assert Key(0);
  }

  lemma ReachStep(c: Settings, first: Joint, moves: seq<Move>, j: Joint, m: Move)
    requires Reaches(c, first, moves, j) && CanMove(j, m)
    ensures Reaches(c, first, moves + [m], Moved(c, j, m))
  {
    Unfold(c, first, moves, j);
    assert (moves + [m])[..|moves|] == moves;
  }

  lemma StillInStop(c: Settings, kernel: Kernel, route: Route.Config, blacklist: set<Host>, moves: seq<Move>, j: Joint)
    requires OnlyReserved(kernel) && Reaches(c, Begin(kernel, route, blacklist), moves, j) && Stopping(j.s.pc)
    ensures InStop(j)
  {
    Unfold(c, Begin(kernel, route, blacklist), moves, j);
    ReachedInStop(c, kernel, route, blacklist, moves);
  }

  lemma {:induction false} FinishFrom(c: Settings, kernel: Kernel, route: Route.Config, blacklist: set<Host>, moves: seq<Move>, j: Joint)
    returns (more: seq<Move>, end: Joint)
    requires OnlyReserved(kernel) && Reaches(c, Begin(kernel, route, blacklist), moves, j) && InStop(j)
    ensures |more| <= StopRank(j) + 1 && forall m :: m in more ==> Concerned(j.s.tunnel.value, m)
    ensures Reaches(c, Begin(kernel, route, blacklist), moves + more, end) && !HasTunnel(end.s.pc)
    decreases StopRank(j)
  {
    var m := NextOfStop(c, j);
    ReachStep(c, Begin(kernel, route, blacklist), moves, j, m);
    end := Moved(c, j, m);
    more := [m];
    if m.Halt? {
      HaltLaunched(c, j);
    } else {
      MoveNotDelayed(c, j, m);
      StillInStop(c, kernel, route, blacklist, moves + [m], end);
      var rest;
      rest, end := FinishFrom(c, kernel, route, blacklist, moves + [m], end);
      more := [m] + rest;
      assert moves + [m] + rest == moves + more;
    }
  }

  /**
   From every reachable joint state within stopTunnel at most nine further moves, all of stopTunnel
   itself or of the tunnel it stops, complete it: then no attempt is in progress and no process lives.
   */
  lemma {:induction false} StopCanFinish(c: Settings, kernel: Kernel, route: Route.Config, blacklist: set<Host>, moves: seq<Move>)
    returns (more: seq<Move>, end: Joint)
    requires OnlyReserved(kernel) && Play(c, Begin(kernel, route, blacklist), moves).Some?
    requires Stopping(Play(c, Begin(kernel, route, blacklist), moves).value.s.pc)
    ensures var j := Play(c, Begin(kernel, route, blacklist), moves).value;
      j.s.tunnel.Some? && forall m :: m in more ==> Concerned(j.s.tunnel.value, m)
    ensures |more| <= 9 && Play(c, Begin(kernel, route, blacklist), moves + more) == Some(end)
    ensures !HasTunnel(end.s.pc) && forall p :: 0 <= p < |end.tubes| ==> !end.tubes[p].state.reaper.Alive?
  {
    var first := Begin(kernel, route, blacklist);
    var j := Play(c, first, moves).value;
    ReachedInStop(c, kernel, route, blacklist, moves);
    more, end := FinishFrom(c, kernel, route, blacklist, moves, j);
    Unfold(c, first, moves + more, end);
    forall p | 0 <= p < |end.tubes| ensures !end.tubes[p].state.reaper.Alive? {
      NoStrayProcess(c, kernel, route, blacklist, moves + more, p);
    }
  }
}
