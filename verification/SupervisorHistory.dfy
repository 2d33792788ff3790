/**
 Route, candidates and blacklist as the schedule alone tells them: what was last set, what was last
 fetched and chosen, what was marked and restored since.
 */
module SupervisorHistory {
  import opened Common
  import opened Egress
  import opened Supervisor
  import opened SupervisorSafety
  import opened SupervisorTrace
  import Route

  // ---------- the route ----------

  /** The configuration last set, or the one there was at the start. */
  function LastSet(route: Route.Config, acts: seq<Action>): Route.Config {
    if acts == [] then route
    else
      match acts[|acts| - 1]
      case Other(SetRoute(config)) => config
      case _ => LastSet(route, acts[..|acts| - 1])
  }

  /** The pool last fetched. */
  function LastPool(acts: seq<Action>): seq<Route.Node> {
    if acts == [] then []
    else
      match acts[|acts| - 1]
      case Run(Fetched(nodes)) => nodes
      case _ => LastPool(acts[..|acts| - 1])
  }

  /** What was to be chosen from, and under which configuration, at the latest choice; None before any. */
  function LastChoice(route: Route.Config, acts: seq<Action>): Option<(seq<Route.Node>, Route.Config)> {
    if acts == [] then None
    else
      var before := acts[..|acts| - 1];
      if acts[|acts| - 1] == Run(Chosen) then Some((LastPool(before), LastSet(route, before))) else LastChoice(route, before)
  }

  /** Where the state stands, by the schedule. */
  predicate Told(c: Settings, route: Route.Config, acts: seq<Action>, s: State) {
    && s.wake.route == LastSet(route, acts)
    && (s.pc.Selecting? ==> s.pc.nodes == LastPool(acts))
    && (match LastChoice(route, acts)
        case None => s.loop.candidates == [] && s.loop.chosen == route
        case Some((nodes, config)) => s.loop.chosen == config && s.loop.candidates == Route.Select(c.letters, nodes, config))
  }

  lemma RunTold(c: Settings, route: Route.Config, acts: seq<Action>, s: State, x: RunStep)
    requires Told(c, route, acts, s) && RunEnabled(s, x)
    ensures Told(c, route, acts + [Run(x)], DoRun(c, s, x))
  {
    assert (acts + [Run(x)])[..|acts|] == acts;
    match x
    case Began =>
    case Fetched(_) =>
    case Chosen =>
    case Rested(_) =>
    case CheckedBlacklist =>
    case CheckedFixed =>
    case MarkedNode =>
  }

  lemma ConnectTold(c: Settings, route: Route.Config, acts: seq<Action>, s: State, x: ConnectStep)
    requires Told(c, route, acts, s) && ConnectEnabled(s, x)
    ensures Told(c, route, acts + [Connect(x)], DoConnect(c, s, x))
  {
    assert (acts + [Connect(x)])[..|acts|] == acts;
    ConnectKeepsRoute(c, s, x);
  }

  lemma ConnectKeepsRoute(c: Settings, s: State, x: ConnectStep)
    requires ConnectEnabled(s, x)
    ensures var t := DoConnect(c, s, x); t.wake.route == s.wake.route && t.loop == s.loop && !t.pc.Selecting? && t.blacklist == s.blacklist
  {
  }

  lemma DriveKeepsRoute(s: State, x: EgressStep)
    requires DriveEnabled(s, x)
    ensures var t := DoDrive(s, x);
      && t.wake.route == s.wake.route && !t.pc.Selecting? && t.blacklist == s.blacklist
      && t.loop.candidates == s.loop.candidates && t.loop.chosen == s.loop.chosen
  {
  }

  lemma DriveTold(c: Settings, route: Route.Config, acts: seq<Action>, s: State, x: EgressStep)
    requires Told(c, route, acts, s) && DriveEnabled(s, x)
    ensures Told(c, route, acts + [Drive(x)], DoDrive(s, x))
  {
    assert (acts + [Drive(x)])[..|acts|] == acts;
    DriveKeepsRoute(s, x);
  }

  lemma OtherTold(c: Settings, route: Route.Config, acts: seq<Action>, s: State, x: OtherStep)
    requires Told(c, route, acts, s) && OtherEnabled(s, x)
    ensures Told(c, route, acts + [Other(x)], DoOther(s, x))
  {
    assert (acts + [Other(x)])[..|acts|] == acts;
    OtherKeepsChoice(s, x);
  }

  lemma OtherKeepsChoice(s: State, x: OtherStep)
    requires OtherEnabled(s, x)
    ensures var t := DoOther(s, x);
      && t.pc == s.pc && t.loop.candidates == s.loop.candidates && t.loop.chosen == s.loop.chosen
      && t.wake.route == if x.SetRoute? then x.config else s.wake.route
  {
  }

  /**
     In every schedule the configuration is the one last set, and the candidates are what that filter
     selects from the pool last fetched, both as they were at the latest choice.
   */
  lemma {:induction false} RouteIsLastSet(c: Settings, kernel: Kernel, route: Route.Config, blacklist: set<Host>, acts: seq<Action>)
    requires Schedule(c, Init(kernel, route, blacklist), acts).Some?
    ensures Told(c, route, acts, Schedule(c, Init(kernel, route, blacklist), acts).value)
  {
    if acts != [] {
      var before, last := acts[..|acts| - 1], acts[|acts| - 1];
      RouteIsLastSet(c, kernel, route, blacklist, before);
      var s := Schedule(c, Init(kernel, route, blacklist), before).value;
      assert before + [last] == acts;
      match last
      case Run(x) => RunTold(c, route, before, s, x);
      case Connect(x) => ConnectTold(c, route, before, s, x);
      case Drive(x) => DriveTold(c, route, before, s, x);
      case Other(x) => OtherTold(c, route, before, s, x);
    }
  }

  /**
     So while connectLoop works under another configuration than the one last set, a wake-up is in the
     channel, about to be sent, or being obeyed: no change of the route, as its setters made it, is lost.
   */
  lemma {:induction false} LastSetIsHeard(c: Settings, kernel: Kernel, route: Route.Config, blacklist: set<Host>, acts: seq<Action>)
    requires OnlyReserved(kernel) && Schedule(c, Init(kernel, route, blacklist), acts).Some?
    ensures var s := Schedule(c, Init(kernel, route, blacklist), acts).value;
      Inside(s.pc) ==>
        && LastChoice(route, acts).Some?
        && (LastChoice(route, acts).value.1 != LastSet(route, acts) ==> s.wake.token || s.wake.unsent > 0 || Leaving(s.pc))
  {
    NoRouteChangeIsLost(c, kernel, route, blacklist, acts);
    RouteIsLastSet(c, kernel, route, blacklist, acts);
    ChosenBeforeInside(c, kernel, route, blacklist, acts);
  }

  lemma {:induction false} ChosenBeforeInside(c: Settings, kernel: Kernel, route: Route.Config, blacklist: set<Host>, acts: seq<Action>)
    requires Schedule(c, Init(kernel, route, blacklist), acts).Some?
    ensures Inside(Schedule(c, Init(kernel, route, blacklist), acts).value.pc) ==> LastChoice(route, acts).Some?
  {
    if acts != [] {
      var before := acts[..|acts| - 1];
      ChosenBeforeInside(c, kernel, route, blacklist, before);
      if acts[|acts| - 1] != Run(Chosen) { OnlyChoiceEnters(c, Schedule(c, Init(kernel, route, blacklist), before).value, acts[|acts| - 1]); }
    }
  }

  /** connectLoop begins with a choice. */
  lemma OnlyChoiceEnters(c: Settings, s: State, a: Action)
    requires Enabled(s, a) && a != Run(Chosen)
    ensures Inside(Do(c, s, a).pc) ==> Inside(s.pc)
  {
    match a
    case Run(x) =>
    case Connect(x) =>
    case Drive(x) =>
    case Other(x) => OtherKeepsChoice(s, x);
  }

  // ---------- the blacklist ----------

  /** The host is on the list by what was there at the start, marked and restored, in this order. */
  predicate Listed(c: Settings, first: State, acts: seq<Action>, host: Host)
    requires Schedule(c, first, acts).Some?
  {
    if acts == [] then host in first.blacklist
    else
      var before := acts[..|acts| - 1];
      match acts[|acts| - 1]
      case Other(Restore(hosts)) => host !in hosts && Listed(c, first, before, host)
      case Run(MarkedNode) => Marks(Schedule(c, first, before).value, host) || Listed(c, first, before, host)
      case _ => Listed(c, first, before, host)
  }

  /** The node whose attempt has just ended has this host. */
  predicate Marks(s: State, host: Host) {
    s.pc.Marking? && s.pc.i < |s.loop.candidates| && s.loop.candidates[s.pc.i].host == host
  }

  lemma StepLists(c: Settings, s: State, a: Action, host: Host)
    requires Enabled(s, a)
    ensures host in Do(c, s, a).blacklist <==>
      (match a
       case Other(Restore(hosts)) => host !in hosts && host in s.blacklist
       case Run(MarkedNode) => Marks(s, host) || host in s.blacklist
       case _ => host in s.blacklist)
  {
    match a
    case Run(x) =>
    case Connect(x) => ConnectKeepsRoute(c, s, x);
    case Drive(x) => DriveKeepsRoute(s, x);
    case Other(x) =>
  }

  /** In every schedule the blacklist holds exactly the hosts marked and not restored since. */
  lemma {:induction false} BlacklistIsToldBySchedule(c: Settings, first: State, acts: seq<Action>, host: Host)
    requires Schedule(c, first, acts).Some?
    ensures host in Schedule(c, first, acts).value.blacklist <==> Listed(c, first, acts, host)
  {
    if acts != [] {
      var before := acts[..|acts| - 1];
      BlacklistIsToldBySchedule(c, first, before, host);
      StepLists(c, Schedule(c, first, before).value, acts[|acts| - 1], host);
    }
  }

  // ---------- refresh requests ----------

  /** A refresh was requested since Run last began a cycle. */
  predicate Requested(acts: seq<Action>) {
    acts != [] &&
    match acts[|acts| - 1]
    case Other(SwapRefresh) => true
    case Run(Began) => false
    case _ => Requested(acts[..|acts| - 1])
  }

  lemma StepRequests(c: Settings, s: State, a: Action)
    requires Enabled(s, a)
    ensures Do(c, s, a).refresh.flag == if a == Other(SwapRefresh) then true else if a == Run(Began) then false else s.refresh.flag
  {
    match a
    case Run(x) =>
    case Connect(x) =>
    case Drive(x) =>
    case Other(x) =>
  }

  /** The flag is up exactly if there was a request in this cycle: so the first request of each cycle rings. */
  lemma {:induction false} FlagMeansRequested(c: Settings, kernel: Kernel, route: Route.Config, blacklist: set<Host>, acts: seq<Action>)
    requires Schedule(c, Init(kernel, route, blacklist), acts).Some?
    ensures Schedule(c, Init(kernel, route, blacklist), acts).value.refresh.flag <==> Requested(acts)
  {
    if acts != [] {
      FlagMeansRequested(c, kernel, route, blacklist, acts[..|acts| - 1]);
      StepRequests(c, Schedule(c, Init(kernel, route, blacklist), acts[..|acts| - 1]).value, acts[|acts| - 1]);
    }
  }

  // ---------- what an attempt has been through ----------

  /** What the attempt that last spawned a process has gone through since. */
  datatype Progress = Progress(spawned: bool, shaken: bool, found: bool, published: bool, probed: bool)

  function Gone(acts: seq<Action>): Progress {
    if acts == [] then Progress(false, false, false, false, false)
    else After(Gone(acts[..|acts| - 1]), acts[|acts| - 1])
  }

  function After(p: Progress, a: Action): Progress {
    match a
    case Connect(Spawned(ok)) => Progress(ok, false, false, false, false)
    case Connect(Shook(true)) => p.(shaken := true)
    case Connect(Looked(true)) => p.(found := true)
    case Connect(Probed(true)) => p.(probed := true)
    case Drive(Published) => p.(published := true)
    case _ => p
  }

  /** What must lie behind an attempt that stands here. */
  predicate Behind(pc: Pc, p: Progress) {
    && (HasTunnel(pc) ==> p.spawned)
    && (PastHandshake(pc) ==> p.spawned && p.shaken)
    && (pc.Installing? || pc.Undoing? || pc.Publishing? || Open(pc) ==> p.found)
    && (Open(pc) ==> p.published)
    && (pc.Watching? ==> p.probed)
  }

  lemma ConnectBehind(c: Settings, s: State, p: Progress, x: ConnectStep)
    requires Behind(s.pc, p) && ConnectEnabled(s, x)
    ensures Behind(DoConnect(c, s, x).pc, After(p, Connect(x)))
  {
    match x
    case Prepared(_) =>
    case Spawned(_) =>
    case Shook(_) =>
    case Looked(_) =>
    case Settled =>
    case Probed(_) =>
    case Watched(_) =>
  }

  lemma DriveBehind(s: State, p: Progress, x: EgressStep)
    requires Behind(s.pc, p) && DriveEnabled(s, x)
    ensures Behind(DoDrive(s, x).pc, After(p, Drive(x)))
  {
    match x
    case Ip(_) =>
    case Published =>
    case Cleared =>
    case Halted =>
  }

  lemma RunBehind(c: Settings, s: State, p: Progress, x: RunStep)
    requires RunEnabled(s, x)
    ensures Behind(DoRun(c, s, x).pc, After(p, Run(x)))
  {
  }

  /**
     In every schedule: a watched tunnel belongs to a process that was spawned, whose handshake was
     reported, whose device was found among the interfaces, for which egress was then opened and which
     a probe found healthy; and at each earlier point of an attempt what comes before has succeeded.
   */
  lemma {:induction false} AttemptsGoInOrder(c: Settings, first: State, acts: seq<Action>)
    requires first.pc.Starting? && Schedule(c, first, acts).Some?
    ensures Behind(Schedule(c, first, acts).value.pc, Gone(acts))
  {
    if acts != [] {
      var before, last := acts[..|acts| - 1], acts[|acts| - 1];
      AttemptsGoInOrder(c, first, before);
      var s := Schedule(c, first, before).value;
      match last
      case Run(x) => RunBehind(c, s, Gone(before), x);
      case Connect(x) => ConnectBehind(c, s, Gone(before), x);
      case Drive(x) => DriveBehind(s, Gone(before), x);
      case Other(x) => OtherKeepsChoice(s, x);
    }
  }
}
