/**
 SetRouteConfig and TriggerFetch as their callers run them: between any two of their atomic sections
 the supervisor, other callers and the outside take arbitrary steps.
 */
module CallerCode {
  import opened Common
  import opened Egress
  import opened Supervisor
  import opened SupervisorSafety
  import opened SupervisorHistory
  import opened SupervisorTrace
  import Route

  /** The wake-up of a configuration the loop does not work under is waiting, coming or being obeyed. */
  predicate Awake(s: State) {
    Inside(s.pc) && s.loop.chosen != s.wake.route ==> s.wake.token || s.wake.unsent > 0 || Leaving(s.pc)
  }

  /** Every moment of the schedule from the given one on. */
  ghost predicate AwakeFrom(c: Settings, first: State, run: seq<Action>, moment: nat) {
    forall k :: moment <= k <= |run| ==> Schedule(c, first, run[..k]).Some? && Awake(Schedule(c, first, run[..k]).value)
  }

  lemma {:induction false} PrefixIsSchedule(c: Settings, first: State, run: seq<Action>, k: nat)
    requires Schedule(c, first, run).Some? && k <= |run|
    ensures Schedule(c, first, run[..k]).Some?
    decreases |run|
  {
    if k == |run| {
      assert run[..k] == run;
    } else {
      PrefixIsSchedule(c, first, run[..|run| - 1], k);
      assert run[..|run| - 1][..k] == run[..k];
    }
  }

  lemma AlwaysAwake(c: Settings, kernel: Kernel, route: Route.Config, blacklist: set<Host>, run: seq<Action>)
    requires OnlyReserved(kernel) && Schedule(c, Init(kernel, route, blacklist), run).Some?
    ensures AwakeFrom(c, Init(kernel, route, blacklist), run, 0)
  {
    forall k | 0 <= k <= |run|
      ensures Schedule(c, Init(kernel, route, blacklist), run[..k]).Some? && Awake(Schedule(c, Init(kernel, route, blacklist), run[..k]).value)
    {
      PrefixIsSchedule(c, Init(kernel, route, blacklist), run, k);
      NoRouteChangeIsLost(c, kernel, route, blacklist, run[..k]);
    }
  }

  /** The steps that could be mistaken for the caller's own pending send are left to it. */
  predicate Foreign(s: State, a: Action) {
    && (a == Other(SendWake) ==> s.wake.unsent > 1)
    && (a == Other(SendRefresh) ==> s.refresh.unsent > 1)
  }

  lemma ForeignKeepsPending(c: Settings, s: State, a: Action)
    requires Enabled(s, a) && Foreign(s, a)
    ensures s.wake.unsent > 0 ==> Do(c, s, a).wake.unsent > 0
    ensures s.refresh.unsent > 0 ==> Do(c, s, a).refresh.unsent > 0
  {
    match a
    case Run(x) =>
    case Connect(x) => ConnectKeepsPending(c, s, x);
    case Drive(x) => DriveKeepsPending(s, x);
    case Other(x) =>
  }

  lemma ConnectKeepsPending(c: Settings, s: State, x: ConnectStep)
    requires ConnectEnabled(s, x)
    ensures DoConnect(c, s, x).wake.unsent == s.wake.unsent && DoConnect(c, s, x).refresh == s.refresh
  {
  }

  lemma DriveKeepsPending(s: State, x: EgressStep)
    requires DriveEnabled(s, x)
    ensures DoDrive(s, x).wake.unsent == s.wake.unsent && DoDrive(s, x).refresh == s.refresh
  {
  }

  predicate NoSetter(acts: seq<Action>) {
    forall k :: 0 <= k < |acts| ==> !(acts[k].Other? && acts[k].other.SetRoute?)
  }

  /** A configuration set stays the last one set as long as nobody sets another. */
  lemma {:induction false} LastSetOfWrite(route: Route.Config, before: seq<Action>, config: Route.Config, more: seq<Action>)
    requires NoSetter(more)
    ensures LastSet(route, before + [Other(SetRoute(config))] + more) == config
  {
    var acts := before + [Other(SetRoute(config))] + more;
    if more == [] {
      assert acts[|acts| - 1] == Other(SetRoute(config));
    } else {
      var shorter := more[..|more| - 1];
      assert acts[..|acts| - 1] == before + [Other(SetRoute(config))] + shorter;
      assert acts[|acts| - 1] == more[|more| - 1];
      LastSetOfWrite(route, before, config, shorter);
    }
  }

  class Shared {
    const c: Settings
    /** What everyone else does the k-th time this caller lets them. */
    const others: nat -> seq<Action>
    var clock: nat
    var s: State
    ghost var run: seq<Action>
    ghost const kernel0: Kernel
    ghost const route0: Route.Config
    ghost const blacklist0: set<Host>

    ghost function First(): State { Init(kernel0, route0, blacklist0) }

    ghost predicate Valid() reads this { OnlyReserved(kernel0) && LedTo(c, First(), run, s) }

    constructor (c: Settings, others: nat -> seq<Action>, kernel: Kernel, route: Route.Config, blacklist: set<Host>)
      requires OnlyReserved(kernel)
      ensures Valid() && s == Init(kernel, route, blacklist) && run == []
    {
      this.c, this.others, clock := c, others, 0;
      s, run := Init(kernel, route, blacklist), [];
      kernel0, route0, blacklist0 := kernel, route, blacklist;
    }

    /** The route where these steps lead. */
    ghost function RouteAfter(acts: seq<Action>): Option<Route.Config> {
      var t := Schedule(c, First(), acts);
      if t.Some? then Some(t.value.wake.route) else None
    }

    lemma WriteIsSeen(before: seq<Action>, config: Route.Config)
      requires Valid() && run == before + [Other(SetRoute(config))]
      ensures RouteAfter(run) == Some(config)
    {
      Unlock(c, First(), run, s);
      RouteIsLastSet(c, kernel0, route0, blacklist0, run);
    }

    lemma NobodyElseSet(before: seq<Action>, config: Route.Config, meanwhile: seq<Action>)
      requires Valid() && run == before + [Other(SetRoute(config))] + meanwhile + [Other(SendWake)]
      ensures NoSetter(meanwhile) ==> s.wake.route == config
    {
      if NoSetter(meanwhile) {
        var more := meanwhile + [Other(SendWake)];
        assert run == before + [Other(SetRoute(config))] + more;
        LastSetOfWrite(route0, before, config, more);
        AtAnyTime();
      }
    }

    lemma FlagTellsRequests()
      requires Valid()
      ensures s.refresh.flag <==> Requested(run)
    {
      Unlock(c, First(), run, s);
      FlagMeansRequested(c, kernel0, route0, blacklist0, run);
    }

    lemma AtAnyTime()
      requires Valid()
      ensures s.wake.route == LastSet(route0, run) && AwakeFrom(c, First(), run, 0)
    {
      Unlock(c, First(), run, s);
      RouteIsLastSet(c, kernel0, route0, blacklist0, run);
      AlwaysAwake(c, kernel0, route0, blacklist0, run);
    }

    /** One atomic section of anyone. */
    method Act(a: Action)
      requires Valid() && Enabled(s, a)
      modifies this
      ensures Valid() && s == Do(c, old(s), a) && run == old(run) + [a] && clock == old(clock)
    {
      LedStep(c, First(), run, s, a);
      s, run := Do(c, s, a), run + [a];
    }

    /** Everyone else, the supervisor included, goes on; steps that are not possible are skipped. */
    method Others()
      requires Valid()
      modifies this
      ensures Valid() && old(run) <= run
      ensures old(s.wake.unsent) > 0 ==> s.wake.unsent > 0
      ensures old(s.refresh.unsent) > 0 ==> s.refresh.unsent > 0
    {
      var batch := others(clock);
      clock := clock + 1;
      for j := 0 to |batch|
        invariant Valid() && old(run) <= run
        invariant old(s.wake.unsent) > 0 ==> s.wake.unsent > 0
        invariant old(s.refresh.unsent) > 0 ==> s.refresh.unsent > 0
      {
        if Enabled(s, batch[j]) && Foreign(s, batch[j]) {
          ForeignKeepsPending(c, s, batch[j]);
          Act(batch[j]);
        }
      }
    }

    /**
     SetRouteConfig: validated, written, saved, then the supervisor is woken; refused input does
     nothing. Whatever the supervisor and others do between the write and the send, at no moment is
     the loop working under another configuration without a wake-up waiting, coming or being obeyed.
     */
    method SetRouteConfig(mode: string, country: string, node: string) returns (reply: Route.Reply, ghost meanwhile: seq<Action>)
      requires Valid()
      modifies this
      ensures Valid() && reply == Route.Validate(c.letters, mode, country, node)
      ensures reply.Refused? ==> s == old(s) && run == old(run)
      ensures reply.Accepted? ==> run == old(run) + [Other(SetRoute(reply.config))] + meanwhile + [Other(SendWake)]
      ensures reply.Accepted? ==> s.wake.token
      ensures reply.Accepted? ==> RouteAfter(old(run) + [Other(SetRoute(reply.config))]) == Some(reply.config)
      ensures s.wake.route == LastSet(route0, run)
      ensures reply.Accepted? && NoSetter(meanwhile) ==> s.wake.route == reply.config
      ensures AwakeFrom(c, First(), run, |old(run)|)
    {
      reply := Route.Validate(c.letters, mode, country, node);
      meanwhile := [];
      if reply.Accepted? {
        Act(Other(SetRoute(reply.config)));
        ghost var written := run;
        WriteIsSeen(old(run), reply.config);
        Others();
        meanwhile := run[|written|..];
        assert run == written + meanwhile;
        Act(Other(SendWake));
        NobodyElseSet(old(run), reply.config, meanwhile);
      }
      AtAnyTime();
    }

    /** TriggerFetch: the flag goes up, and only the caller that raised it rings the channel. */
    method TriggerFetch() returns (rang: bool, ghost meanwhile: seq<Action>)
      requires Valid()
      modifies this
      ensures Valid() && rang == !old(s.refresh.flag) && (rang <==> !Requested(old(run)))
      ensures run == old(run) + [Other(SwapRefresh)] + if rang then meanwhile + [Other(SendRefresh)] else []
      ensures rang ==> s.refresh.token
    {
      FlagTellsRequests();
      rang := !s.refresh.flag;
      meanwhile := [];
      Act(Other(SwapRefresh));
      if rang {
        ghost var swapped := run;
        Others();
        meanwhile := run[|swapped|..];
        assert run == swapped + meanwhile;
        Act(Other(SendRefresh));
        assert run == old(run) + [Other(SwapRefresh)] + (meanwhile + [Other(SendRefresh)]);
      } else {
        assert run == old(run) + [Other(SwapRefresh)] + [];
      }
    }
  }
}
