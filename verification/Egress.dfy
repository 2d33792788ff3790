/**
 The egress policy: the `ip` commands that install and remove the serving and the verification
 routes, the controller that gates application dials, and why neither can disturb the other.
 */
module Egress {
  import opened Common

  datatype Rule = Rule(mark: nat, table: nat, priority: nat)

  const SERVING := Rule(0xc0de, 51820, 10001)
  const PROBING := Rule(0xc0df, 51821, 10002)

  /** The commands passed to `ip`. */
  datatype Command =
    | RouteReplace(device: string, table: nat)   // route replace default dev <device> table <table>
    | RuleAdd(rule: Rule)
    | RuleDel(rule: Rule)
    | RouteFlush(table: nat)

  /** Exit status zero, or a failure that may have taken effect all the same. */
  datatype Outcome = Done | Refused(applied: bool)

  /** What this code has installed and not removed: policy rules and default routes per table. */
  datatype Kernel = Kernel(rules: multiset<Rule>, routes: map<nat, string>)

  function Apply(k: Kernel, c: Command): Kernel {
    match c
    case RouteReplace(device, table) => k.(routes := k.routes[table := device])
    case RuleAdd(rule) => k.(rules := k.rules + multiset{rule})
    case RuleDel(rule) => k.(rules := k.rules - multiset{rule})
    case RouteFlush(table) => k.(routes := k.routes - {table})
  }

  function Exec(k: Kernel, c: Command, o: Outcome): Kernel {
    if o.Done? || o.applied then Apply(k, c) else k
  }

  function HostRouteCommands(device: string): seq<Command> {
    [RouteReplace(device, SERVING.table), RuleAdd(SERVING)]
  }

  function HostRouteCleanupCommands(): seq<Command> {
    [RuleDel(SERVING), RouteFlush(SERVING.table)]
  }

  function DeviceRouteCommands(device: string): seq<Command> {
    [RouteReplace(device, PROBING.table), RuleAdd(PROBING)]
  }

  function DeviceRouteCleanupCommands(): seq<Command> {
    [RuleDel(PROBING), RouteFlush(PROBING.table)]
  }

  // ---------- what a marked packet meets ----------

  /** The devices the default routes of the tables selected for a mark lead to. */
  ghost function Devices(k: Kernel, mark: nat): set<string> {
    set r | r in k.rules && r.mark == mark && r.table in k.routes :: k.routes[r.table]
  }

  /** Only the two reserved rules are ever installed. */
  ghost predicate OnlyReserved(k: Kernel) { forall r :: r in k.rules ==> r == SERVING || r == PROBING }

  /** The part of the kernel that concerns one of the two rules. */
  function View(k: Kernel, rule: Rule): (nat, Option<string>) {
    (k.rules[rule], if rule.table in k.routes then Some(k.routes[rule.table]) else None)
  }

  predicate Concerns(c: Command, rule: Rule) {
    match c
    case RouteReplace(_, table) => table == rule.table
    case RuleAdd(r) => r == rule
    case RuleDel(r) => r == rule
    case RouteFlush(table) => table == rule.table
  }

  predicate ServingCommand(c: Command) { Concerns(c, SERVING) }
  predicate ProbingCommand(c: Command) { Concerns(c, PROBING) }

  /** The rule and the route for a rule are both in place and lead to the device. */
  predicate Installed(k: Kernel, rule: Rule, device: string) {
    rule in k.rules && rule.table in k.routes && k.routes[rule.table] == device
  }

  lemma OtherRuleUntouched(k: Kernel, c: Command, rule: Rule, other: Rule)
    requires rule != other && rule.table != other.table && Concerns(c, rule)
    ensures View(Apply(k, c), other) == View(k, other)
  {
    match c
    case RouteReplace(device, table) =>
    case RuleAdd(r) => assert (k.rules + multiset{r})[other] == k.rules[other];
    case RuleDel(r) => assert (k.rules - multiset{r})[other] == k.rules[other];
    case RouteFlush(table) =>
  }

  /** A command for one rule, with any outcome, is invisible to the other. */
  lemma NoInterference(k: Kernel, c: Command, o: Outcome)
    ensures ProbingCommand(c) ==> View(Exec(k, c, o), SERVING) == View(k, SERVING)
    ensures ServingCommand(c) ==> View(Exec(k, c, o), PROBING) == View(k, PROBING)
    ensures OnlyReserved(k) && (ServingCommand(c) || ProbingCommand(c)) ==> OnlyReserved(Exec(k, c, o))
  {
    if ProbingCommand(c) { OtherRuleUntouched(k, c, PROBING, SERVING); }
    if ServingCommand(c) { OtherRuleUntouched(k, c, SERVING, PROBING); }
  }

  function Other(rule: Rule): Rule { if rule == SERVING then PROBING else SERVING }

  /** A change that only concerns one of the two reserved rules. */
  ghost predicate Confined(a: Kernel, b: Kernel, rule: Rule) {
    (OnlyReserved(a) ==> OnlyReserved(b)) && View(b, Other(rule)) == View(a, Other(rule))
  }

  lemma CommandIsConfined(k: Kernel, c: Command, o: Outcome, rule: Rule)
    requires rule in {SERVING, PROBING} && Concerns(c, rule)
    ensures Confined(k, Exec(k, c, o), rule)
  {
    NoInterference(k, c, o);
  }

  /** Views decide installation. */
  lemma InstalledByView(k: Kernel, rule: Rule, device: string)
    ensures Installed(k, rule, device) <==> View(k, rule).0 > 0 && View(k, rule).1 == Some(device)
  {
  }

  /** With the serving route installed, a packet carrying the serving mark can only leave by that device. */
  lemma MarkLeadsToDevice(k: Kernel, rule: Rule, device: string)
    requires OnlyReserved(k) && Installed(k, rule, device) && rule in {SERVING, PROBING}
    ensures Devices(k, rule.mark) == {device}
  {
    assert forall r :: r in k.rules && r.mark == rule.mark ==> r == rule;
  }

  // ---------- the controller ----------

  datatype Snapshot = Snapshot(device: string, ready: bool, kernel: Kernel)

  /** While the controller lets dials through, the kernel sends them to the recorded device. */
  predicate FailClosed(s: Snapshot) {
    s.ready ==> s.device != "" && Installed(s.kernel, SERVING, s.device)
  }

  datatype Binding = Unbound | Marked(mark: nat) | NotReady

  /** The controller with the kernel it drives; `seen` lists every state another thread could observe. */
  class Controller {
    const host: bool
    var device: string
    var ready: bool
    var kernel: Kernel
    var calls: nat
    /** How the k-th `ip` command ends. */
    const outcome: nat -> Outcome
    ghost var seen: seq<Snapshot>

    ghost function Now(): Snapshot reads this { Snapshot(device, ready, kernel) }

    /** Every state observable since the given moment fails closed. */
    ghost predicate ClosedSince(moment: nat) reads this {
      moment <= |seen| && (forall i :: moment <= i < |seen| ==> FailClosed(seen[i])) && FailClosed(Now())
    }

    /**
     What undoing a refused rule leaves, the two cleanup commands being the k-th and the next: as
     far as each succeeds, no rule that was not there before and no route in its table.
     */
    ghost predicate Undone(before: Kernel, rule: Rule, k: nat) reads this {
      && (outcome(k).Done? ==> kernel.rules <= before.rules)
      && (outcome(k + 1).Done? ==> rule.table !in kernel.routes)
    }

    constructor (mode: string, kernel: Kernel, outcome: nat -> Outcome)
      ensures host == (mode == "host") && this.kernel == kernel && seen == []
      ensures ready <==> mode == "container"
      ensures host ==> FailClosed(Now())
    {
      this.host, this.device, this.ready := mode == "host", "", mode == "container";
      this.kernel, this.calls, this.outcome, this.seen := kernel, 0, outcome, [];
    }

    /** runIP. */
    method RunIP(c: Command) returns (ok: bool)
      modifies this`kernel, this`calls, this`seen
      ensures kernel == Exec(old(kernel), c, outcome(old(calls))) && calls == old(calls) + 1
      ensures ok <==> outcome(old(calls)).Done?
      ensures seen == old(seen) + [Now()]
    {
      ok := outcome(calls).Done?;
      kernel := Exec(kernel, c, outcome(calls));
      calls := calls + 1;
      seen := seen + [Now()];
    }

    /** One command of the serving path, while dials are shut out. */
    method RunServingIP(c: Command, ghost moment: nat) returns (ok: bool)
      requires Concerns(c, SERVING) && moment <= |seen|
      modifies this`kernel, this`calls, this`seen
      ensures kernel == Exec(old(kernel), c, outcome(old(calls))) && calls == old(calls) + 1
      ensures ok <==> outcome(old(calls)).Done?
      ensures Confined(old(kernel), kernel, SERVING)
      ensures old(seen) <= seen && (!ready && old(ClosedSince(moment)) ==> ClosedSince(moment))
    {
      CommandIsConfined(kernel, c, outcome(calls), SERVING);
      ok := RunIP(c);
    }

    /** clearHostRoute: failures are ignored. */
    method ClearHostRoute(ghost moment: nat)
      requires moment <= |seen|
      modifies this`kernel, this`calls, this`seen
      ensures Confined(old(kernel), kernel, SERVING)
      ensures calls == old(calls) + 2
      ensures outcome(old(calls)).Done? ==> kernel.rules == old(kernel.rules) - multiset{SERVING}
      ensures outcome(old(calls) + 1).Done? ==> SERVING.table !in kernel.routes
      ensures kernel.rules <= old(kernel.rules)
      ensures old(seen) <= seen && (!ready && old(ClosedSince(moment)) ==> ClosedSince(moment))
    {
      var commands := HostRouteCleanupCommands();
      var _ := RunServingIP(commands[0], moment);
      var _ := RunServingIP(commands[1], moment);
    }

    /** setupHostRoute. */
    method SetupHostRoute(device: string, ghost moment: nat) returns (ok: bool)
      requires moment <= |seen|
      modifies this`kernel, this`calls, this`seen
      ensures Confined(old(kernel), kernel, SERVING)
      ensures old(seen) <= seen && (!ready && old(ClosedSince(moment)) ==> ClosedSince(moment))
      ensures ok <==> outcome(old(calls) + 2).Done? && outcome(old(calls) + 3).Done?
      ensures ok ==> Installed(kernel, SERVING, device)
      ensures !outcome(old(calls) + 2).Done? ==> kernel.rules <= old(kernel.rules)
      ensures outcome(old(calls) + 2).Done? && !ok ==> Undone(old(kernel), SERVING, old(calls) + 4)
    {
      ClearHostRoute(moment);
      ok := InstallHostRoute(device, moment);
    }

    /** The route first, then the rule; a refused rule is undone. */
    method InstallHostRoute(device: string, ghost moment: nat) returns (ok: bool)
      requires moment <= |seen|
      modifies this`kernel, this`calls, this`seen
      ensures Confined(old(kernel), kernel, SERVING)
      ensures old(seen) <= seen && (!ready && old(ClosedSince(moment)) ==> ClosedSince(moment))
      ensures ok <==> outcome(old(calls)).Done? && outcome(old(calls) + 1).Done?
      ensures ok ==> Installed(kernel, SERVING, device)
      ensures !outcome(old(calls)).Done? ==> kernel.rules == old(kernel.rules)
      ensures outcome(old(calls)).Done? && !ok ==> Undone(old(kernel), SERVING, old(calls) + 2)
    {
      var commands := HostRouteCommands(device);
      ok := RunServingIP(commands[0], moment);
      if !ok { return; }
      ok := RunServingIP(commands[1], moment);
      if !ok { ClearHostRoute(moment); }
    }

    /**
     Configure. Host egress opens exactly when the device is named, exists, and both commands
     succeed; if it was closed before, no moment on the way lets a dial through.
     */
    method Configure(device: string, found: bool) returns (ok: bool)
      modifies this
      ensures Confined(old(kernel), kernel, SERVING)
      ensures host && ok ==> ready && this.device == device && device != "" && Installed(kernel, Rule(0xc0de, 51820, 10001), device)
      ensures !host || !ok ==> ready == old(ready) && this.device == old(this.device)
      ensures !host ==> ok && kernel == old(kernel)
      ensures host ==> (ok <==> device != "" && found && outcome(old(calls) + 2).Done? && outcome(old(calls) + 3).Done?)
      ensures host && !old(ready) ==> ClosedSince(|old(seen)|)
    {
      if !host { return true; }
      if device == "" { return false; }
      if !found { return false; }
      ok := SetupHostRoute(device, |seen|);
      if !ok { return; }
      this.device, this.ready := device, true;
      seen := seen + [Now()];
    }

    /** Clear: closed first, the kernel second, so no moment on the way lets a dial through. */
    method Clear()
      modifies this
      ensures Confined(old(kernel), kernel, SERVING)
      ensures host ==> !ready && device == "" && ClosedSince(|old(seen)|)
      ensures host && outcome(old(calls)).Done? ==> kernel.rules == old(kernel.rules) - multiset{SERVING}
      ensures host && outcome(old(calls) + 1).Done? ==> SERVING.table !in kernel.routes
      ensures !host ==> ready == old(ready) && device == old(device) && kernel == old(kernel)
    {
      if !host { return; }
      ready, device := false, "";
      seen := seen + [Now()];
      ClearHostRoute(|old(seen)|);
    }

    /** control: what the socket of an application dial is bound to. */
    method Control() returns (b: Binding)
      ensures host && !ready ==> b == NotReady
      ensures host && ready ==> b == Marked(0xc0de)
      ensures host && b.Marked? && OnlyReserved(kernel) && FailClosed(Now()) ==> Devices(kernel, b.mark) == {device}
      ensures !host ==> b == Unbound
    {
      if !host { return Unbound; }
      if !ready { return NotReady; }
      if OnlyReservedAndClosed() { MarkLeadsToDevice(kernel, SERVING, device); }
      return Marked(SERVING.mark);
    }

    ghost predicate OnlyReservedAndClosed() reads this { OnlyReserved(kernel) && FailClosed(Now()) && ready }

    /** What holds for serving traffic after a step that is confined to the verification rule. */
    lemma StaysClosed(before: Kernel)
      requires Confined(before, kernel, PROBING)
      ensures FailClosed(Snapshot(device, ready, before)) ==> FailClosed(Now())
    {
      InstalledByView(before, SERVING, device);
      InstalledByView(kernel, SERVING, device);
    }

    /** One command of the verification path, at a moment that fails closed. */
    method RunProbeIP(c: Command, ghost moment: nat) returns (ok: bool)
      requires Concerns(c, PROBING) && moment <= |seen|
      modifies this`kernel, this`calls, this`seen
      ensures kernel == Exec(old(kernel), c, outcome(old(calls))) && calls == old(calls) + 1
      ensures ok <==> outcome(old(calls)).Done?
      ensures Confined(old(kernel), kernel, PROBING)
      ensures old(seen) <= seen && (old(ClosedSince(moment)) ==> ClosedSince(moment))
    {
      CommandIsConfined(kernel, c, outcome(calls), PROBING);
      ghost var before := kernel;
      ok := RunIP(c);
      StaysClosed(before);
    }

    /** clearDeviceRoute: never touches what serving traffic meets. */
    method ClearDeviceRoute(ghost moment: nat)
      requires moment <= |seen|
      modifies this`kernel, this`calls, this`seen
      ensures Confined(old(kernel), kernel, PROBING)
      ensures calls == old(calls) + 2
      ensures outcome(old(calls)).Done? ==> kernel.rules == old(kernel.rules) - multiset{PROBING}
      ensures outcome(old(calls) + 1).Done? ==> PROBING.table !in kernel.routes
      ensures kernel.rules <= old(kernel.rules)
      ensures old(seen) <= seen && (old(ClosedSince(moment)) ==> ClosedSince(moment))
    {
      var commands := DeviceRouteCleanupCommands();
      var _ := RunProbeIP(commands[0], moment);
      var _ := RunProbeIP(commands[1], moment);
    }

    /** setupDeviceRoute, on behalf of NewDeviceDialer. */
    method SetupDeviceRoute(device: string, ghost moment: nat) returns (ok: bool)
      requires moment <= |seen|
      modifies this`kernel, this`calls, this`seen
      ensures Confined(old(kernel), kernel, PROBING)
      ensures old(seen) <= seen && (old(ClosedSince(moment)) ==> ClosedSince(moment))
      ensures ok <==> outcome(old(calls) + 2).Done? && outcome(old(calls) + 3).Done?
      ensures ok ==> Installed(kernel, Rule(0xc0df, 51821, 10002), device)
      ensures !outcome(old(calls) + 2).Done? ==> kernel.rules <= old(kernel.rules)
      ensures outcome(old(calls) + 2).Done? && !ok ==> Undone(old(kernel), PROBING, old(calls) + 4)
    {
      ClearDeviceRoute(moment);
      ok := InstallDeviceRoute(device, moment);
    }

    method InstallDeviceRoute(device: string, ghost moment: nat) returns (ok: bool)
      requires moment <= |seen|
      modifies this`kernel, this`calls, this`seen
      ensures Confined(old(kernel), kernel, PROBING)
      ensures old(seen) <= seen && (old(ClosedSince(moment)) ==> ClosedSince(moment))
      ensures ok <==> outcome(old(calls)).Done? && outcome(old(calls) + 1).Done?
      ensures ok ==> Installed(kernel, PROBING, device)
      ensures !outcome(old(calls)).Done? ==> kernel.rules == old(kernel.rules)
      ensures outcome(old(calls)).Done? && !ok ==> Undone(old(kernel), PROBING, old(calls) + 2)
    {
      var commands := DeviceRouteCommands(device);
      ok := RunProbeIP(commands[0], moment);
      if !ok { return; }
      ok := RunProbeIP(commands[1], moment);
      if !ok { ClearDeviceRoute(moment); }
    }
  }
}
