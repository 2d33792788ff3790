/**
 Refresh requests. TriggerFetch raises a flag and rings a one-slot channel if the flag was down; Run
 lowers the flag at the top of its loop but listens to the channel only while it pauses. So a token
 outlives any number of cycles, and the pause that finally takes it ends Run.
 */
module SupervisorRefresh {
  import opened Common
  import opened Egress
  import opened Supervisor
  import opened SupervisorSafety
  import opened SupervisorTrace
  import Monitor
  import Route

  // ---------- accounting ----------

  /** Tokens stem from rings, rings from calls, and the flag lets one ring through per cycle. */
  predicate RefreshInv(s: State) {
    && One(s.refresh.token) + s.refresh.unsent + One(s.pc.Returned?) <= s.refresh.rings <= s.refresh.calls
    && s.refresh.rings <= s.refresh.cycles + One(s.refresh.flag)
  }

  lemma RunRefresh(c: Settings, s: State, x: RunStep)
    requires RefreshInv(s) && RunEnabled(s, x)
    ensures RefreshInv(DoRun(c, s, x))
  {
  }

  /** Attempts neither use the refresh channel nor end Run. */
  lemma ConnectRefresh(c: Settings, s: State, x: ConnectStep)
    requires ConnectEnabled(s, x)
    ensures DoConnect(c, s, x).refresh == s.refresh && !DoConnect(c, s, x).pc.Returned? && !s.pc.Returned?
  {
  }

  lemma DriveRefresh(s: State, x: EgressStep)
    requires DriveEnabled(s, x)
    ensures DoDrive(s, x).refresh == s.refresh && !DoDrive(s, x).pc.Returned? && !s.pc.Returned?
  {
  }

  lemma OtherRefresh(s: State, x: OtherStep)
    requires OtherEnabled(s, x)
    ensures RefreshInv(s) ==> RefreshInv(DoOther(s, x))
    ensures DoOther(s, x).pc == s.pc && (s.refresh.token ==> DoOther(s, x).refresh.token)
    ensures !x.SwapRefresh? ==> DoOther(s, x).refresh.calls == s.refresh.calls
  {
  }

  lemma RefreshStep(c: Settings, s: State, a: Action)
    requires RefreshInv(s) && Enabled(s, a)
    ensures RefreshInv(Do(c, s, a))
  {
    match a
    case Run(x) => RunRefresh(c, s, x);
    case Connect(x) => ConnectRefresh(c, s, x);
    case Drive(x) => DriveRefresh(s, x);
    case Other(x) => OtherRefresh(s, x);
  }

  lemma {:induction false} RunKeepsRefresh(c: Settings, first: State, acts: seq<Action>)
    requires RefreshInv(first) && Schedule(c, first, acts).Some?
    ensures RefreshInv(Schedule(c, first, acts).value)
  {
    if acts != [] {
      RunKeepsRefresh(c, first, acts[..|acts| - 1]);
      RefreshStep(c, Schedule(c, first, acts[..|acts| - 1]).value, acts[|acts| - 1]);
    }
  }

  /** Calls are counted by the swaps of the schedule. */
  lemma {:induction false} CallsNeedSwaps(c: Settings, first: State, acts: seq<Action>)
    requires Schedule(c, first, acts).Some? && first.refresh.calls == 0 && Other(SwapRefresh) !in acts
    ensures Schedule(c, first, acts).value.refresh.calls == 0
  {
    if acts != [] {
      var before, last := acts[..|acts| - 1], acts[|acts| - 1];
      assert acts == before + [last];
      CallsNeedSwaps(c, first, before);
      var s := Schedule(c, first, before).value;
      match last
      case Run(x) =>
      case Connect(x) => ConnectRefresh(c, s, x);
      case Drive(x) => DriveRefresh(s, x);
      case Other(x) => OtherRefresh(s, x);
    }
  }

  // ---------- when Run returns ----------

  /**
     In any schedule: Run has returned only after a TriggerFetch, and the tokens in the channel, on
     their way to it and taken by a pause are no more than the calls, nor than the cycles of Run plus one.
   */
  lemma {:induction false} ReturnsStemFromTriggers(c: Settings, kernel: Kernel, route: Route.Config, blacklist: set<Host>, acts: seq<Action>)
    requires Schedule(c, Init(kernel, route, blacklist), acts).Some?
    ensures var s := Schedule(c, Init(kernel, route, blacklist), acts).value;
      && (s.pc.Returned? ==> Other(SwapRefresh) in acts)
      && One(s.refresh.token) + s.refresh.unsent + One(s.pc.Returned?) <= s.refresh.calls
      && One(s.refresh.token) + s.refresh.unsent + One(s.pc.Returned?) <= s.refresh.cycles + 1
  {
    RunKeepsRefresh(c, Init(kernel, route, blacklist), acts);
    if Other(SwapRefresh) !in acts { CallsNeedSwaps(c, Init(kernel, route, blacklist), acts); }
  }

  /** A step ends Run exactly if it is a pause's and takes the token. */
  lemma StepEndsRun(c: Settings, s: State, a: Action)
    requires Enabled(s, a) && !s.pc.Returned?
    ensures Do(c, s, a).pc.Returned? <==> s.pc.Resting? && s.refresh.token && !Do(c, s, a).refresh.token
  {
    match a
    case Run(x) =>
    case Connect(x) => ConnectRefresh(c, s, x);
    case Drive(x) => DriveRefresh(s, x);
    case Other(x) => OtherRefresh(s, x);
  }

  /** A pause can end Run exactly if a token is there when it is entered or arrives while it lasts. */
  lemma PauseCanEndRun(c: Settings, s: State)
    requires s.pc.Resting?
    ensures s.refresh.token <==> exists a :: Enabled(s, a) && Do(c, s, a).pc.Returned?
  {
    if s.refresh.token {
      assert Enabled(s, Run(Rested(true))) && Do(c, s, Run(Rested(true))).pc.Returned?;
    }
    if a :| Enabled(s, a) && Do(c, s, a).pc.Returned? { StepEndsRun(c, s, a); }
  }

  /** Nothing but the end of Run takes a token out: not the flag, not a cycle, not a connected tunnel. */
  lemma {:induction false} TokenOutlivesEverything(c: Settings, first: State, acts: seq<Action>)
    requires Schedule(c, first, acts).Some? && first.refresh.token && !first.pc.Returned?
    ensures Schedule(c, first, acts).value.refresh.token || Schedule(c, first, acts).value.pc.Returned?
  {
    if acts != [] {
      TokenOutlivesEverything(c, first, acts[..|acts| - 1]);
      var s := Schedule(c, first, acts[..|acts| - 1]).value;
      match acts[|acts| - 1]
      case Run(x) =>
      case Connect(x) => ConnectRefresh(c, s, x);
      case Drive(x) => DriveRefresh(s, x);
      case Other(x) => OtherRefresh(s, x);
    }
  }

  // ---------- a run ----------

  predicate NoTrigger(acts: seq<Action>) { Other(SwapRefresh) !in acts }

  /** A schedule goes on from `base` by steps that request no refresh. */
  ghost predicate Leads(c: Settings, first: State, base: seq<Action>, more: seq<Action>, s: State) {
    NoTrigger(more) && Schedule(c, first, base + more) == Some(s)
  }

  lemma Go(c: Settings, first: State, base: seq<Action>, more: seq<Action>, s: State, a: Action)
    returns (longer: seq<Action>, t: State)
    requires Leads(c, first, base, more, s) && Enabled(s, a) && a != Other(SwapRefresh)
    ensures t == Do(c, s, a) && Leads(c, first, base, longer, t)
  {
    ScheduleStep(c, first, base + more, a);
    longer, t := more + [a], Do(c, s, a);
    assert base + longer == base + more + [a];
  }

  /** The first candidate is being connected and its process is up. */
  lemma Spawn(c: Settings, first: State, base: seq<Action>, node: Route.Node) returns (acts: seq<Action>, s: State)
    requires Schedule(c, first, base) == Some(first)
    requires first.pc.Starting? && first.processes == [] && first.refresh == Refresh(false, false, 0, 0, 0, 0)
    requires first.wake.route == Route.Config("auto", "", "") && node.host !in first.blacklist
    ensures Leads(c, first, base, acts, s)
    ensures s.pc == Shaking(0) && s.tunnel == Some(0) && s.processes == [Process(true, false, "", {})]
    ensures s.loop.candidates == [node] && !s.refresh.flag && !s.refresh.token
  {
    assert base + [] == base;
    acts, s := Go(c, first, base, [], first, Run(Began));
    acts, s := Go(c, first, base, acts, s, Run(Fetched([node])));
    acts, s := Go(c, first, base, acts, s, Run(Chosen));
    acts, s := Go(c, first, base, acts, s, Run(CheckedBlacklist));
    acts, s := Go(c, first, base, acts, s, Connect(Prepared(true)));
    acts, s := Go(c, first, base, acts, s, Connect(Spawned(true)));
  }

  lemma Shake(c: Settings, first: State, base: seq<Action>, before: seq<Action>, s0: State) returns (acts: seq<Action>, s: State)
    requires Leads(c, first, base, before, s0)
    requires s0.pc == Shaking(0) && s0.tunnel == Some(0) && s0.processes == [Process(true, false, "", {})]
    ensures Leads(c, first, base, acts, s)
    ensures s.pc == Installing(0, "tun0", 0) && s.tunnel == Some(0) && |s.processes| == 1 && s.processes[0].alive
    ensures s.loop == s0.loop && s.refresh == s0.refresh
  {
    acts, s := Go(c, first, base, before, s0, Other(Reports(0, "tun0")));
    acts, s := Go(c, first, base, acts, s, Other(Shakes(0)));
    acts, s := Go(c, first, base, acts, s, Connect(Shook(true)));
    acts, s := Go(c, first, base, acts, s, Connect(Looked(true)));
  }

  /** What the rest of the way leaves as it is. */
  predicate Same(s: State, t: State) {
    t.tunnel == s.tunnel && t.processes == s.processes && t.loop == s.loop && t.refresh == s.refresh
  }

  lemma Install(c: Settings, first: State, base: seq<Action>, before: seq<Action>, s0: State) returns (acts: seq<Action>, s: State)
    requires Leads(c, first, base, before, s0) && s0.pc == Installing(0, "tun0", 0)
    ensures Leads(c, first, base, acts, s) && s.pc == Publishing(0, "tun0") && Same(s0, s)
  {
    acts, s := Go(c, first, base, before, s0, Drive(Ip(Done)));
    acts, s := Go(c, first, base, acts, s, Drive(Ip(Done)));
    acts, s := Go(c, first, base, acts, s, Drive(Ip(Done)));
    acts, s := Go(c, first, base, acts, s, Drive(Ip(Done)));
  }

  lemma Confirm(c: Settings, first: State, base: seq<Action>, before: seq<Action>, s0: State) returns (acts: seq<Action>, s: State)
    requires Leads(c, first, base, before, s0) && s0.pc == Publishing(0, "tun0") && c.tries >= 1
    ensures Leads(c, first, base, acts, s) && s.pc == Watching(0, 0) && s.egress.ready && Same(s0, s)
  {
    acts, s := Go(c, first, base, before, s0, Drive(Published));
    acts, s := Go(c, first, base, acts, s, Connect(Settled));
    acts, s := Go(c, first, base, acts, s, Connect(Probed(true)));
  }

  /** A watched tunnel whose openvpn dies is taken down. */
  lemma Lose(c: Settings, first: State, base: seq<Action>, before: seq<Action>, s0: State) returns (acts: seq<Action>, s: State)
    requires Leads(c, first, base, before, s0)
    requires s0.pc == Watching(0, 0) && s0.tunnel == Some(0) && |s0.processes| == 1 && s0.processes[0].alive
    ensures Leads(c, first, base, acts, s) && s.pc == Marking(0) && s.loop == s0.loop && s.refresh == s0.refresh
  {
    acts, s := Go(c, first, base, before, s0, Other(Dies(0)));
    acts, s := Go(c, first, base, acts, s, Connect(Watched(Monitor.Exited(""))));
    acts, s := Go(c, first, base, acts, s, Drive(Cleared));
    acts, s := Go(c, first, base, acts, s, Drive(Ip(Done)));
    acts, s := Go(c, first, base, acts, s, Drive(Ip(Done)));
    acts, s := Go(c, first, base, acts, s, Drive(Halted));
  }

  /** The node is marked, the candidates are exhausted, and the pause takes the token. */
  lemma Pause(c: Settings, first: State, base: seq<Action>, before: seq<Action>, s0: State) returns (acts: seq<Action>, s: State)
    requires Leads(c, first, base, before, s0)
    requires s0.pc == Marking(0) && |s0.loop.candidates| == 1 && s0.refresh.token
    ensures Leads(c, first, base, acts, s) && s.pc.Returned?
  {
    acts, s := Go(c, first, base, before, s0, Run(MarkedNode));
    acts, s := Go(c, first, base, acts, s, Run(CheckedBlacklist));
    acts, s := Go(c, first, base, acts, s, Run(Rested(true)));
  }

  /** From the start to a watched tunnel. */
  lemma Up(c: Settings, first: State, node: Route.Node) returns (acts: seq<Action>, s: State)
    requires first.pc.Starting? && first.processes == [] && first.refresh == Refresh(false, false, 0, 0, 0, 0)
    requires first.wake.route == Route.Config("auto", "", "") && node.host !in first.blacklist && c.tries >= 1
    ensures NoTrigger(acts) && Schedule(c, first, acts) == Some(s)
    ensures s.pc == Watching(0, 0) && s.egress.ready && s.tunnel == Some(0) && |s.processes| == 1 && s.processes[0].alive
    ensures |s.loop.candidates| == 1 && !s.refresh.flag
  {
    acts, s := Spawn(c, first, [], node);
    acts, s := Shake(c, first, [], acts, s);
    acts, s := Install(c, first, [], acts, s);
    acts, s := Confirm(c, first, [], acts, s);
    assert [] + acts == acts;
  }

  /** And from a request made then to the end of Run. */
  lemma Down(c: Settings, first: State, up: seq<Action>, s0: State) returns (acts: seq<Action>, s: State)
    requires Schedule(c, first, up) == Some(s0) && !s0.refresh.flag && |s0.loop.candidates| == 1
    requires s0.pc == Watching(0, 0) && s0.tunnel == Some(0) && |s0.processes| == 1 && s0.processes[0].alive
    ensures NoTrigger(acts) && Schedule(c, first, up + [Other(SwapRefresh)] + acts) == Some(s) && s.pc.Returned?
  {
    ScheduleStep(c, first, up, Other(SwapRefresh));
    var base := up + [Other(SwapRefresh)];
    s := Do(c, s0, Other(SwapRefresh));
    assert base + [] == base;
    acts, s := Go(c, first, base, [], s, Other(SendRefresh));
    acts, s := Lose(c, first, base, acts, s);
    acts, s := Pause(c, first, base, acts, s);
  }

  /**
     A refresh requested while a tunnel is up does nothing until that tunnel is lost; then the pause
     behind it takes the token and Run is over, without any further request.
   */
  lemma RequestWhileConnectedEndsRun(c: Settings, kernel: Kernel, node: Route.Node) returns (up: seq<Action>, down: seq<Action>)
    requires c.tries >= 1
    ensures var first := Init(kernel, Route.Config("auto", "", ""), {});
      && NoTrigger(up) && Schedule(c, first, up).Some?
      && Schedule(c, first, up).value.pc.Watching? && Schedule(c, first, up).value.egress.ready
      && NoTrigger(down) && Schedule(c, first, up + [Other(SwapRefresh)] + down).Some?
      && Schedule(c, first, up + [Other(SwapRefresh)] + down).value.pc.Returned?
  {
    var first := Init(kernel, Route.Config("auto", "", ""), {});
    var s: State;
    up, s := Up(c, first, node);
    down, s := Down(c, first, up, s);
  }
}
