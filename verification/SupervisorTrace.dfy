/** The history of connectLoop, and a bound on the connection attempts of any run. */
module SupervisorTrace {
  import opened Common
  import opened Egress
  import opened Supervisor
  import opened SupervisorSafety
  import Route

  // ---------- the turns of connectLoop ----------

  /** connectAndVerify or what follows it is at work on candidate pc.i. */
  predicate InAttempt(pc: Pc) { pc.Preparing? || pc.Spawning? || pc.Marking? || HasTunnel(pc) }

  /** The host is blacklisted, or someone has restored it since connectLoop began. */
  predicate Burnt(s: State, host: Host) { host in s.blacklist || host in s.loop.restored }

  /** What a turn found and how it ended agree. */
  predicate TurnOk(s: State, k: nat)
    requires k < |s.loop.turns|
  {
    var t := s.loop.turns[k];
    && k < |s.loop.candidates| && t.node == s.loop.candidates[k]
    && (t.fate.Skipped? <==> t.blacklisted && !t.fixed)
    && (t.blacklisted || t.fate.Blacklisted? ==> Burnt(s, t.node.host))
    && (t.fate.Attempting? || t.fate.LeftForMode? ==> k == |s.loop.turns| - 1)
    && (t.blacklisted && !s.loop.changed ==> (t.fixed <==> Route.IsFixed(t.node, s.loop.chosen)))
  }

  /** The attempt in progress did not start on a blacklisted host unless that host is fixed. */
  predicate Fresh(s: State)
    requires s.loop.turns != []
  {
    var t := s.loop.turns[|s.loop.turns| - 1];
    !t.blacklisted ==> t.node.host !in s.blacklist
  }

  predicate LoopInv(s: State) {
    && (forall k :: 0 <= k < |s.loop.turns| ==> TurnOk(s, k))
    && (Inside(s.pc) ==> |s.loop.turns| == s.pc.i + One(InAttempt(s.pc)) <= |s.loop.candidates|)
    && (s.pc.FixedCheck? ==> s.pc.i < |s.loop.candidates| && Burnt(s, s.loop.candidates[s.pc.i].host))
    && (InAttempt(s.pc) ==> s.loop.turns[s.pc.i].fate.Attempting? && Fresh(s))
    && (Inside(s.pc) && !InAttempt(s.pc) ==> forall k :: 0 <= k < |s.loop.turns| ==> Ended(s.loop.turns[k]))
    && (s.loop.turns != [] && s.loop.turns[|s.loop.turns| - 1].fate.LeftForMode? ==> Fresh(s))
  }

  predicate Ended(t: Turn) { t.fate.Skipped? || t.fate.Blacklisted? }

  lemma AttemptLoop(s: State, i: nat, blacklisted: bool, fixed: bool)
    requires LoopInv(s) && (s.pc == Turning(i) || s.pc == FixedCheck(i)) && i < |s.loop.candidates|
    requires blacklisted <==> fixed
    requires blacklisted <==> s.pc.FixedCheck?
    requires !blacklisted ==> s.loop.candidates[i].host !in s.blacklist
    requires fixed ==> Route.IsFixed(s.loop.candidates[i], s.wake.route)
    requires !s.loop.changed ==> s.loop.chosen == s.wake.route
    ensures LoopInv(Attempt(s, i, blacklisted, fixed))
  {
    var t := Attempt(s, i, blacklisted, fixed);
    forall k | 0 <= k < |t.loop.turns| ensures TurnOk(t, k) {
      if k < |s.loop.turns| { assert TurnOk(s, k) && Ended(s.loop.turns[k]); }
    }
  }

  lemma SkipLoop(c: Settings, s: State)
    requires LoopInv(s) && WakeInv(s) && s.pc.FixedCheck? && !Route.IsFixed(s.loop.candidates[s.pc.i], s.wake.route)
    ensures LoopInv(DoRun(c, s, CheckedFixed))
  {
    var t := DoRun(c, s, CheckedFixed);
    forall k | 0 <= k < |t.loop.turns| ensures TurnOk(t, k) {
      if k < |s.loop.turns| { assert TurnOk(s, k) && Ended(s.loop.turns[k]); }
    }
  }

  lemma MarkLoop(c: Settings, s: State)
    requires LoopInv(s) && RunEnabled(s, MarkedNode)
    ensures LoopInv(DoRun(c, s, MarkedNode))
  {
    var t := DoRun(c, s, MarkedNode);
    forall k | 0 <= k < |t.loop.turns| ensures TurnOk(t, k) && Ended(t.loop.turns[k]) { assert TurnOk(s, k); }
  }

  lemma RunLoop(c: Settings, s: State, x: RunStep)
    requires LoopInv(s) && WakeInv(s) && RunEnabled(s, x)
    ensures LoopInv(DoRun(c, s, x))
  {
    match x
    case Began => Unmoved(s, DoRun(c, s, x));
    case Fetched(_) => Unmoved(s, DoRun(c, s, x));
    case Chosen =>
    case Rested(_) => Unmoved(s, DoRun(c, s, x));
    case CheckedBlacklist =>
      var i := s.pc.i;
      if i >= |s.loop.candidates| { Unmoved(s, DoRun(c, s, x)); }
      else if s.loop.candidates[i].host in s.blacklist { Unmoved(s, DoRun(c, s, x)); }
      else { AttemptLoop(s, i, false, false); }
    case CheckedFixed =>
      var i := s.pc.i;
      if Route.IsFixed(s.loop.candidates[i], s.wake.route) { AttemptLoop(s, i, true, true); } else { SkipLoop(c, s); }
    case MarkedNode => MarkLoop(c, s);
  }

  /** Only the program counter moved, and not into or out of an attempt. */
  lemma Unmoved(s: State, t: State)
    requires LoopInv(s) && t.loop == s.loop && t.blacklist == s.blacklist
    requires Inside(t.pc) ==> Inside(s.pc) && t.pc.i == s.pc.i && InAttempt(t.pc) == InAttempt(s.pc)
    requires t.pc.FixedCheck? ==> t.pc.i < |t.loop.candidates| && Burnt(t, t.loop.candidates[t.pc.i].host)
    ensures LoopInv(t)
  {
    forall k | 0 <= k < |t.loop.turns| ensures TurnOk(t, k) { assert TurnOk(s, k); }
  }

  lemma ConnectLoop(c: Settings, s: State, x: ConnectStep)
    requires LoopInv(s) && ConnectEnabled(s, x)
    ensures LoopInv(DoConnect(c, s, x))
  {
    Unmoved(s, DoConnect(c, s, x));
  }

  lemma HaltLoop(s: State)
    requires LoopInv(s) && s.pc.Halting?
    ensures LoopInv(DoHalt(s))
  {
    var t := DoHalt(s);
    if s.pc.why.Failure? {
      Unmoved(s, t);
    } else {
      forall k | 0 <= k < |t.loop.turns| ensures TurnOk(t, k) { assert TurnOk(s, k); }
    }
  }

  lemma DriveLoop(s: State, x: EgressStep)
    requires LoopInv(s) && DriveEnabled(s, x)
    ensures LoopInv(DoDrive(s, x))
  {
    if x.Halted? { HaltLoop(s); } else { Unmoved(s, DoDrive(s, x)); }
  }

  lemma OtherLoop(s: State, x: OtherStep)
    requires LoopInv(s) && OtherEnabled(s, x)
    ensures LoopInv(DoOther(s, x))
  {
    var t := DoOther(s, x);
    forall k | 0 <= k < |t.loop.turns| ensures TurnOk(t, k) { assert TurnOk(s, k); }
  }

  lemma LoopStep(c: Settings, s: State, a: Action)
    requires LoopInv(s) && WakeInv(s) && Enabled(s, a)
    ensures LoopInv(Do(c, s, a))
  {
    match a
    case Run(x) => RunLoop(c, s, x);
    case Connect(x) => ConnectLoop(c, s, x);
    case Drive(x) => DriveLoop(s, x);
    case Other(x) => OtherLoop(s, x);
  }

  // ---------- the trace of a run of connectLoop ----------

  /** The nodes connectAndVerify was called for, in order. */
  function Tried(turns: seq<Turn>): seq<Route.Node> {
    if turns == [] then []
    else
      var last := turns[|turns| - 1];
      Tried(turns[..|turns| - 1]) + if last.fate.Skipped? then [] else [last.node]
  }

  /** The nodes that were blacklisted for failing, in order. */
  function Failed(turns: seq<Turn>): seq<Route.Node> {
    if turns == [] then []
    else
      var last := turns[|turns| - 1];
      Failed(turns[..|turns| - 1]) + if last.fate.Blacklisted? then [last.node] else []
  }

  lemma {:induction false} EndedTurns(turns: seq<Turn>)
    requires forall k :: 0 <= k < |turns| ==> Ended(turns[k])
    ensures Tried(turns) == Failed(turns)
  {
    if turns != [] { EndedTurns(turns[..|turns| - 1]); }
  }

  /** The turns are the candidates in order, and one is tried exactly if it was not blacklisted at its turn or is the route node. */
  predicate FaithfulTurns(loop: Loop) {
    |loop.turns| <= |loop.candidates| &&
    forall k :: 0 <= k < |loop.turns| ==>
      var t := loop.turns[k];
      && t.node == loop.candidates[k]
      && (!t.fate.Skipped? <==> !t.blacklisted || t.fixed)
      && (t.blacklisted && !loop.changed ==> (t.fixed <==> Route.IsFixed(t.node, loop.chosen)))
  }

  lemma {:induction false} RunKeepsLoopInv(c: Settings, first: State, acts: seq<Action>)
    requires LoopInv(first) && WakeInv(first) && SafeInv(first) && Schedule(c, first, acts).Some?
    ensures LoopInv(Schedule(c, first, acts).value)
  {
    if acts != [] {
      RunKeepsLoopInv(c, first, acts[..|acts| - 1]);
      RunKeepsInv(c, first, acts[..|acts| - 1]);
      LoopStep(c, Schedule(c, first, acts[..|acts| - 1]).value, acts[|acts| - 1]);
    }
  }

  lemma ReachedLoopInv(c: Settings, kernel: Kernel, route: Route.Config, blacklist: set<Host>, acts: seq<Action>)
    requires OnlyReserved(kernel) && Schedule(c, Init(kernel, route, blacklist), acts).Some?
    ensures LoopInv(Schedule(c, Init(kernel, route, blacklist), acts).value)
  {
    InitInv(kernel, route, blacklist);
    RunKeepsLoopInv(c, Init(kernel, route, blacklist), acts);
  }

  lemma InvIsFaithful(s: State)
    requires LoopInv(s)
    ensures FaithfulTurns(s.loop)
  {
    forall k | 0 <= k < |s.loop.turns|
      ensures var t := s.loop.turns[k];
        && k < |s.loop.candidates| && t.node == s.loop.candidates[k]
        && (!t.fate.Skipped? <==> !t.blacklisted || t.fixed)
        && (t.blacklisted && !s.loop.changed ==> (t.fixed <==> Route.IsFixed(t.node, s.loop.chosen)))
    {
      assert TurnOk(s, k);
    }
    if s.loop.turns != [] { assert TurnOk(s, |s.loop.turns| - 1); }
  }

  /**
     When connectLoop has exhausted its candidates, every one had its turn, every attempted one was
     blacklisted for failing, and every candidate is blacklisted unless somebody restored it since.
   */
  lemma {:induction false} ExhaustedTrace(c: Settings, kernel: Kernel, route: Route.Config, blacklist: set<Host>, acts: seq<Action>)
    requires OnlyReserved(kernel) && Schedule(c, Init(kernel, route, blacklist), acts).Some?
    requires var s := Schedule(c, Init(kernel, route, blacklist), acts).value; s.pc == Turning(|s.loop.candidates|)
    ensures var s := Schedule(c, Init(kernel, route, blacklist), acts).value;
      && FaithfulTurns(s.loop) && |s.loop.turns| == |s.loop.candidates|
      && Tried(s.loop.turns) == Failed(s.loop.turns)
      && forall k :: 0 <= k < |s.loop.candidates| ==> Burnt(s, s.loop.candidates[k].host)
  {
    ReachedLoopInv(c, kernel, route, blacklist, acts);
    var s := Schedule(c, Init(kernel, route, blacklist), acts).value;
    InvIsFaithful(s);
    EndedTurns(s.loop.turns);
    forall k | 0 <= k < |s.loop.candidates| ensures Burnt(s, s.loop.candidates[k].host) {
      assert TurnOk(s, k) && Ended(s.loop.turns[k]);
    }
  }

  /**
     When connectLoop has left for a route change, everything it attempted before was blacklisted,
     and the node it was connected to was not: it is blacklisted only if it was at its turn.
   */
  lemma {:induction false} ModeExitTrace(c: Settings, kernel: Kernel, route: Route.Config, blacklist: set<Host>, acts: seq<Action>)
    requires OnlyReserved(kernel) && Schedule(c, Init(kernel, route, blacklist), acts).Some?
    requires var s := Schedule(c, Init(kernel, route, blacklist), acts).value;
      s.loop.turns != [] && s.loop.turns[|s.loop.turns| - 1].fate.LeftForMode?
    ensures var s := Schedule(c, Init(kernel, route, blacklist), acts).value;
      var last := s.loop.turns[|s.loop.turns| - 1];
      && FaithfulTurns(s.loop)
      && Tried(s.loop.turns) == Failed(s.loop.turns) + [last.node]
      && (last.node.host in s.blacklist ==> last.blacklisted)
  {
    ReachedLoopInv(c, kernel, route, blacklist, acts);
    var s := Schedule(c, Init(kernel, route, blacklist), acts).value;
    InvIsFaithful(s);
    var front := s.loop.turns[..|s.loop.turns| - 1];
    forall k | 0 <= k < |front| ensures Ended(front[k]) { assert TurnOk(s, k); }
    EndedTurns(front);
    assert TurnOk(s, |s.loop.turns| - 1);
  }

  /** Before the next turn every failed node is on the blacklist, unless somebody restored it since. */
  lemma {:induction false} FailedNodesAreBlacklisted(c: Settings, kernel: Kernel, route: Route.Config, blacklist: set<Host>, acts: seq<Action>, k: nat)
    requires OnlyReserved(kernel) && Schedule(c, Init(kernel, route, blacklist), acts).Some?
    requires var s := Schedule(c, Init(kernel, route, blacklist), acts).value; s.pc.Turning? && k < s.pc.i
    ensures var s := Schedule(c, Init(kernel, route, blacklist), acts).value;
      k < |s.loop.turns| && Ended(s.loop.turns[k]) && Burnt(s, s.loop.turns[k].node.host)
  {
    ReachedLoopInv(c, kernel, route, blacklist, acts);
    var s := Schedule(c, Init(kernel, route, blacklist), acts).value;
    assert TurnOk(s, k) && Ended(s.loop.turns[k]);
  }

  // ---------- a locked node is always retried ----------

  predicate Locked(config: Route.Config) { config.mode == "fixed" && config.node != "" }

  /** Under a fixed route every candidate is the locked node. */
  predicate LockInv(s: State) {
    Locked(s.loop.chosen) ==> forall n :: n in s.loop.candidates ==> Route.IsFixed(n, s.loop.chosen)
  }

  lemma LockStep(c: Settings, s: State, a: Action)
    requires LockInv(s) && Enabled(s, a)
    ensures LockInv(Do(c, s, a))
  {
    match a
    case Run(x) => if x.Chosen? { ChooseLock(c, s); }
    case Connect(x) => ConnectKeepsCandidates(c, s, x);
    case Drive(x) => DriveKeepsCandidates(s, x);
    case Other(x) => OtherKeepsCandidates(s, x);
  }

  lemma ChooseLock(c: Settings, s: State)
    requires s.pc.Selecting?
    ensures LockInv(DoRun(c, s, Chosen))
  {
    if Locked(s.wake.route) { Route.FixedCandidatesAreFixed(c.letters, s.pc.nodes, s.wake.route); }
  }

  lemma ConnectKeepsCandidates(c: Settings, s: State, x: ConnectStep)
    requires ConnectEnabled(s, x)
    ensures DoConnect(c, s, x).loop == s.loop
  {
  }

  lemma DriveKeepsCandidates(s: State, x: EgressStep)
    requires DriveEnabled(s, x)
    ensures DoDrive(s, x).loop.candidates == s.loop.candidates && DoDrive(s, x).loop.chosen == s.loop.chosen
  {
  }

  lemma OtherKeepsCandidates(s: State, x: OtherStep)
    requires OtherEnabled(s, x)
    ensures DoOther(s, x).loop.candidates == s.loop.candidates && DoOther(s, x).loop.chosen == s.loop.chosen
  {
  }

  lemma {:induction false} RunKeepsLock(c: Settings, first: State, acts: seq<Action>)
    requires LockInv(first) && Schedule(c, first, acts).Some?
    ensures LockInv(Schedule(c, first, acts).value)
  {
    if acts != [] {
      RunKeepsLock(c, first, acts[..|acts| - 1]);
      LockStep(c, Schedule(c, first, acts[..|acts| - 1]).value, acts[|acts| - 1]);
    }
  }

  /** As long as a fixed route stays, no turn skips its node, however often it was blacklisted. */
  lemma {:induction false} FixedNodeIsNeverSkipped(c: Settings, kernel: Kernel, route: Route.Config, blacklist: set<Host>, acts: seq<Action>, k: nat)
    requires OnlyReserved(kernel) && Schedule(c, Init(kernel, route, blacklist), acts).Some?
    requires var s := Schedule(c, Init(kernel, route, blacklist), acts).value;
      Locked(s.loop.chosen) && !s.loop.changed && k < |s.loop.turns|
    ensures !Schedule(c, Init(kernel, route, blacklist), acts).value.loop.turns[k].fate.Skipped?
  {
    ReachedLoopInv(c, kernel, route, blacklist, acts);
    RunKeepsLock(c, Init(kernel, route, blacklist), acts);
    var s := Schedule(c, Init(kernel, route, blacklist), acts).value;
    assert TurnOk(s, k);
    assert s.loop.candidates[k] in s.loop.candidates;
  }

  // ---------- a bound on connection attempts ----------

  /** Nodes come from a set of hosts, no route names a node, and nothing is restored. */
  predicate Plain(a: Action, hosts: set<Host>) {
    && (a.Run? && a.run.Fetched? ==> FromHosts(a.run.nodes, hosts))
    && (a.Other? && a.other.SetRoute? ==> a.other.config.node == "")
    && !(a.Other? && a.other.Restore?)
  }

  predicate FromHosts(nodes: seq<Route.Node>, hosts: set<Host>) { forall n :: n in nodes ==> n.host in hosts }

  predicate CountInv(s: State, hosts: set<Host>, first: set<Host>) {
    && s.wake.route.node == "" && first <= s.blacklist <= first + hosts
    && FromHosts(s.loop.candidates, hosts) && (s.pc.Selecting? ==> FromHosts(s.pc.nodes, hosts))
    && s.attempts == |s.blacklist - first| + s.wake.exits + One(InAttempt(s.pc))
    && (InAttempt(s.pc) ==> s.pc.i < |s.loop.candidates| && s.loop.candidates[s.pc.i].host !in s.blacklist)
  }

  lemma ChooseCount(c: Settings, s: State, hosts: set<Host>, first: set<Host>)
    requires CountInv(s, hosts, first) && s.pc.Selecting?
    ensures CountInv(DoRun(c, s, Chosen), hosts, first)
  {
    Route.SelectFromPool(c.letters, s.pc.nodes, s.wake.route);
  }

  lemma MarkCount(c: Settings, s: State, hosts: set<Host>, first: set<Host>)
    requires CountInv(s, hosts, first) && RunEnabled(s, MarkedNode)
    ensures CountInv(DoRun(c, s, MarkedNode), hosts, first)
  {
    var host := s.loop.candidates[s.pc.i].host;
    assert s.loop.candidates[s.pc.i] in s.loop.candidates;
    assert s.blacklist + {host} - first == (s.blacklist - first) + {host};
  }

  /** Steps that neither finish an attempt nor touch the blacklist. */
  lemma CountFrame(s: State, t: State, hosts: set<Host>, first: set<Host>)
    requires CountInv(s, hosts, first) && t.wake == s.wake && t.blacklist == s.blacklist
    requires t.loop.candidates == s.loop.candidates && (t.pc.Selecting? ==> FromHosts(t.pc.nodes, hosts))
    requires !InAttempt(s.pc) && t.attempts == s.attempts + One(InAttempt(t.pc))
    requires InAttempt(t.pc) ==> t.pc.i < |t.loop.candidates| && t.loop.candidates[t.pc.i].host !in t.blacklist
    ensures CountInv(t, hosts, first)
  {
  }

  lemma PauseCount(c: Settings, s: State, x: RunStep, hosts: set<Host>, first: set<Host>)
    requires CountInv(s, hosts, first) && RunEnabled(s, x) && Plain(Run(x), hosts) && (x.Began? || x.Fetched? || x.Rested?)
    ensures CountInv(DoRun(c, s, x), hosts, first)
  {
  }

  lemma RunCount(c: Settings, s: State, x: RunStep, hosts: set<Host>, first: set<Host>)
    requires CountInv(s, hosts, first) && RunEnabled(s, x) && Plain(Run(x), hosts)
    ensures CountInv(DoRun(c, s, x), hosts, first)
  {
    match x
    case Chosen => ChooseCount(c, s, hosts, first);
    case MarkedNode => MarkCount(c, s, hosts, first);
    case CheckedBlacklist => CountFrame(s, DoRun(c, s, x), hosts, first);
    case CheckedFixed => CountFrame(s, DoRun(c, s, x), hosts, first);
    case _ => PauseCount(c, s, x, hosts, first);
  }

  lemma ConnectCount(c: Settings, s: State, x: ConnectStep, hosts: set<Host>, first: set<Host>)
    requires CountInv(s, hosts, first) && ConnectEnabled(s, x)
    ensures CountInv(DoConnect(c, s, x), hosts, first)
  {
    InsideCount(s, DoConnect(c, s, x), hosts, first);
  }

  lemma HaltCount(s: State, hosts: set<Host>, first: set<Host>)
    requires CountInv(s, hosts, first) && s.pc.Halting?
    ensures CountInv(DoHalt(s), hosts, first)
  {
  }

  /** Steps inside an attempt. */
  lemma InsideCount(s: State, t: State, hosts: set<Host>, first: set<Host>)
    requires CountInv(s, hosts, first) && t.blacklist == s.blacklist && t.attempts == s.attempts
    requires t.wake.route == s.wake.route && t.wake.exits == s.wake.exits
    requires t.loop.candidates == s.loop.candidates && InAttempt(s.pc) && InAttempt(t.pc) && t.pc.i == s.pc.i
    ensures CountInv(t, hosts, first)
  {
  }

  lemma DriveCount(s: State, x: EgressStep, hosts: set<Host>, first: set<Host>)
    requires CountInv(s, hosts, first) && DriveEnabled(s, x)
    ensures CountInv(DoDrive(s, x), hosts, first)
  {
    if x.Halted? { HaltCount(s, hosts, first); } else { InsideCount(s, DoDrive(s, x), hosts, first); }
  }

  lemma OtherCount(s: State, x: OtherStep, hosts: set<Host>, first: set<Host>)
    requires CountInv(s, hosts, first) && OtherEnabled(s, x) && Plain(Other(x), hosts)
    ensures CountInv(DoOther(s, x), hosts, first)
  {
  }

  lemma {:induction false} RunKeepsCount(c: Settings, start: State, acts: seq<Action>, hosts: set<Host>, first: set<Host>)
    requires CountInv(start, hosts, first) && Schedule(c, start, acts).Some?
    requires forall k :: 0 <= k < |acts| ==> Plain(acts[k], hosts)
    ensures CountInv(Schedule(c, start, acts).value, hosts, first)
  {
    if acts != [] {
      RunKeepsCount(c, start, acts[..|acts| - 1], hosts, first);
      var s := Schedule(c, start, acts[..|acts| - 1]).value;
      assert Plain(acts[|acts| - 1], hosts);
      match acts[|acts| - 1]
      case Run(x) => RunCount(c, s, x, hosts, first);
      case Connect(x) => ConnectCount(c, s, x, hosts, first);
      case Drive(x) => DriveCount(s, x, hosts, first);
      case Other(x) => OtherCount(s, x, hosts, first);
    }
  }

  /**
     With hostnames from a finite set, no node locked and nothing restored, the connection attempts
     of any run are at most one for each host not blacklisted at the start and one for each exit for
     a route change; those exits are at most the calls of SetRouteConfig.
   */
  lemma {:induction false} AttemptsAreBounded(c: Settings, kernel: Kernel, route: Route.Config, blacklist: set<Host>, acts: seq<Action>, hosts: set<Host>)
    requires OnlyReserved(kernel) && Schedule(c, Init(kernel, route, blacklist), acts).Some?
    requires route.node == "" && forall k :: 0 <= k < |acts| ==> Plain(acts[k], hosts)
    ensures var s := Schedule(c, Init(kernel, route, blacklist), acts).value;
      s.attempts <= |hosts - blacklist| + s.wake.exits && s.wake.exits <= s.wake.calls
  {
    InitInv(kernel, route, blacklist);
    RunKeepsInv(c, Init(kernel, route, blacklist), acts);
    assert blacklist - blacklist == {};
    RunKeepsCount(c, Init(kernel, route, blacklist), acts, hosts, blacklist);
    var s := Schedule(c, Init(kernel, route, blacklist), acts).value;
    var used := s.blacklist - blacklist;
    if InAttempt(s.pc) {
      var host := s.loop.candidates[s.pc.i].host;
      assert s.loop.candidates[s.pc.i] in s.loop.candidates && host !in used;
      SubsetIsSmaller(used + {host}, hosts - blacklist);
    } else {
      SubsetIsSmaller(used, hosts - blacklist);
    }
  }

  // ---------- schedules for proofs about the program ----------

  lemma ScheduleStep(c: Settings, first: State, acts: seq<Action>, a: Action)
    requires Schedule(c, first, acts).Some? && Enabled(Schedule(c, first, acts).value, a)
    ensures Schedule(c, first, acts + [a]) == Some(Do(c, Schedule(c, first, acts).value, a))
  {
    assert (acts + [a])[..|acts|] == acts;
  }

  /** Always true. A proof that names a key may look at the schedule behind a state; others need not unfold it. */
  predicate Key(k: int) { true }

  ghost predicate LedTo(c: Settings, first: State, acts: seq<Action>, s: State) {
    forall k {:trigger Key(k)} :: Key(k) ==> Schedule(c, first, acts) == Some(s)
  }

  lemma Unlock(c: Settings, first: State, acts: seq<Action>, s: State)
    requires LedTo(c, first, acts, s)
    ensures Schedule(c, first, acts) == Some(s)
  {
    assert Key(0);
  }

  lemma LedStep(c: Settings, first: State, acts: seq<Action>, s: State, a: Action)
    requires LedTo(c, first, acts, s) && Enabled(s, a)
    ensures LedTo(c, first, acts + [a], Do(c, s, a))
  {
    Unlock(c, first, acts, s);
    ScheduleStep(c, first, acts, a);
  }

  // ---------- what the comment on connectLoop promises and the code does not ----------

  /**
     When its turn is over, and nothing was restored since, a candidate is on the blacklist exactly if
     it was there at its turn or its attempt failed: being the locked node makes no difference.
   */
  lemma {:induction false} BlacklistedExactly(c: Settings, kernel: Kernel, route: Route.Config, blacklist: set<Host>, acts: seq<Action>, k: nat)
    requires OnlyReserved(kernel) && Schedule(c, Init(kernel, route, blacklist), acts).Some?
    requires var s := Schedule(c, Init(kernel, route, blacklist), acts).value;
      k < |s.loop.turns| && !s.loop.turns[k].fate.Attempting? && s.loop.restored == {}
    ensures var s := Schedule(c, Init(kernel, route, blacklist), acts).value;
      var t := s.loop.turns[k];
      t.node.host in s.blacklist <==> t.blacklisted || t.fate.Blacklisted?
  {
    ReachedLoopInv(c, kernel, route, blacklist, acts);
    EndedTurnsAreListed(Schedule(c, Init(kernel, route, blacklist), acts).value, k);
  }

  lemma EndedTurnsAreListed(s: State, k: nat)
    requires LoopInv(s) && k < |s.loop.turns| && !s.loop.turns[k].fate.Attempting? && s.loop.restored == {}
    ensures var t := s.loop.turns[k]; t.node.host in s.blacklist <==> t.blacklisted || t.fate.Blacklisted?
  {
    assert TurnOk(s, k);
  }

  /** The locked node is blacklisted like any other when its attempt fails; it is only never skipped. */
  lemma FixedNodeIsBlacklisted(c: Settings, kernel: Kernel, node: Route.Node) returns (route: Route.Config, acts: seq<Action>)
    requires node.host != ""
    ensures Route.IsFixed(node, route) && route.mode == "fixed"
    ensures Schedule(c, Init(kernel, route, {}), acts).Some?
    ensures node.host in Schedule(c, Init(kernel, route, {}), acts).value.blacklist
  {
    route := Route.Config("fixed", "", node.host);
    var first := Init(kernel, route, {});
    assert Route.Select(c.letters, [node], route) == [node];
    ScheduleStep(c, first, [], Run(Began));
    acts := [] + [Run(Began)];
    ScheduleStep(c, first, acts, Run(Fetched([node])));
    acts := acts + [Run(Fetched([node]))];
    ScheduleStep(c, first, acts, Run(Chosen));
    acts := acts + [Run(Chosen)];
    ScheduleStep(c, first, acts, Run(CheckedBlacklist));
    acts := acts + [Run(CheckedBlacklist)];
    ScheduleStep(c, first, acts, Connect(Prepared(false)));
    acts := acts + [Connect(Prepared(false))];
    ScheduleStep(c, first, acts, Run(MarkedNode));
    acts := acts + [Run(MarkedNode)];
  }
}
