/**
 The methods of a tunnel over its fields. Between any two of its atomic actions a goroutine lets
 the others run, in batches that an arbitrary script hands out; steps that are not possible at
 that moment, or belong to the goroutine itself, are skipped.
 */
module TunnelCode {
  import opened Common
  import opened Text
  import opened TunnelMachine
  import T = Tunnel

  datatype Thread = Scanner(who: nat) | Reaper | Waiter | Owner

  function ThreadOf(a: Action): Thread {
    match a
    case Scan(who, _) => Scanner(who)
    case Reap(_) => Reaper
    case Wait(_) => Waiter
    case Own(_) => Owner
  }

  /** Where a thread stands. */
  datatype Place = AtScanner(scanner: TunnelMachine.Scanner) | AtReaper(reaper: TunnelMachine.Reaper) | AtWaiter(waiting: bool) | AtOwner(stopper: Stopper) | Nowhere

  function PlaceOf(s: State, t: Thread): Place {
    match t
    case Scanner(who) => if who < |s.scanners| then AtScanner(s.scanners[who]) else Nowhere
    case Reaper => AtReaper(s.reaper)
    case Waiter => AtWaiter(s.waiting)
    case Owner => AtOwner(s.stopper)
  }

  /** Others do not move a thread, except that the owner gives birth to the reaper. */
  lemma OthersKeepPlace(s: State, a: Action, me: Thread)
    requires Enabled(s, a) && ThreadOf(a) != me && (me.Reaper? ==> !s.reaper.Unborn?)
    ensures PlaceOf(Do(s, a), me) == PlaceOf(s, me)
  {
  }

  type Script = nat -> seq<Action>

  /** The case a select statement picks among those that are ready. */
  datatype Case = OnDone | OnHandshake | OnEvent | OnTimer

  class Tunnel {
    var handshakeCh: bool
    var events: seq<Event>
    var device: string
    var killed: bool
    /** Where the goroutines stand. */
    var scanners: seq<TunnelMachine.Scanner>
    var reaper: TunnelMachine.Reaper
    var waiting: bool
    var stopper: Stopper
    var log: seq<Happening>
    ghost var run: seq<Action>

    function Now(): State reads this {
      State(handshakeCh, events, device, killed, scanners, reaper, waiting, stopper, log)
    }

    /** The fields are where the run so far leads. */
    ghost predicate Valid() reads this { Exec(run) == Some(Now()) && T.Faithful(run) }

    constructor ()
      ensures Valid() && run == [] && Now() == Init()
    {
      handshakeCh, events, device, killed := false, [], "", false;
      scanners, reaper, waiting, stopper := [Reading, Reading], Unborn, false, Free;
      log, run := [], [];
    }

    method Happen(h: Happening)
      modifies this`log
      ensures log == old(log) + [h]
    {
      log := log + [h];
    }

    /** The second half of emit. */
    method OfferEvent(e: Event)
      modifies this`log, this`events
      ensures Now() == Offer(old(Now()), e)
    {
      if |events| < QUEUE_SLOTS {
        events := events + [e];
        Happen(HasPosted(e));
      } else {
        Happen(HasDropped(e));
      }
    }

    method ReceiveEvent() returns (e: Event)
      requires events != []
      modifies this`log, this`events
      ensures e == old(events[0]) && Now() == DoReceive(old(Now()))
    {
      e := events[0];
      events := events[1..];
      Happen(HasReceived(e));
    }

    method PerformScan(who: nat, x: ScanStep)
      requires Valid() && ScanEnabled(Now(), who, x) && (x.Read? ==> T.FaithfulRead(x))
      modifies this
      ensures Valid() && run == old(run) + [Scan(who, x)] && Now() == DoScan(old(Now()), who, x)
    {
      ExecStep(run, Scan(who, x));
      run := run + [Scan(who, x)];
      match x
      case Read(line, kind, name) =>
        if name != "" { device := name; }
        Happen(HasRead(line, kind, name));
        scanners := scanners[who := if kind.Handshake? then Signalling(line) else Posting(Event(kind, line))];
      case Signal =>
        handshakeCh := true;
        Happen(HasSignalled);
        scanners := scanners[who := Posting(Event(Handshake, scanners[who].line))];
      case Post =>
        var e := scanners[who].event;
        scanners := scanners[who := Reading];
        OfferEvent(e);
    }

    method PerformReap(x: ReapStep)
      requires Valid() && ReapEnabled(Now(), x)
      modifies this
      ensures Valid() && run == old(run) + [Reap(x)] && Now() == DoReap(old(Now()), x)
    {
      ExecStep(run, Reap(x));
      run := run + [Reap(x)];
      match x
      case ProcessExits(status) => reaper := Gone(status);
      case ReadKilled =>
        var text := ExitText(killed, reaper.status);
        reaper := Reporting(text);
        Happen(HasReaped(text, killed));
      case ReportExit =>
        var e := Event(Exit, reaper.text);
        reaper := Closing;
        OfferEvent(e);
      case CloseExit =>
        reaper := Closed;
        Happen(HasClosed);
    }

    method PerformWait(x: WaitStep)
      requires Valid() && WaitEnabled(Now(), x)
      modifies this
      ensures Valid() && run == old(run) + [Wait(x)] && Now() == DoWait(old(Now()), x)
    {
      ExecStep(run, Wait(x));
      run := run + [Wait(x)];
      match x
      case BeginWait => waiting := true;
      case TakeToken => handshakeCh, waiting := false, false; Happen(HasWaited(Up));
      case TakeEvent =>
        var e := ReceiveEvent();
        if Decisive(e) { waiting := false; Happen(HasWaited(Refused(e))); }
      case Expire => waiting := false; Happen(HasWaited(Expired));
      case Cancel => waiting := false; Happen(HasWaited(Cancelled));
      case OtherReceives => var _ := ReceiveEvent();
    }

    method PerformOwn(x: OwnerStep)
      requires Valid() && OwnEnabled(Now(), x)
      modifies this
      ensures Valid() && run == old(run) + [Own(x)] && Now() == DoOwn(old(Now()), x)
    {
      ExecStep(run, Own(x));
      run := run + [Own(x)];
      match x
      case Start(spawned) => killed := false; reaper := if spawned then Alive else Unborn;
      case BeginStop =>
        killed := true;
        if reaper.Unborn? { Happen(HasStopped(false)); } else { stopper := Awaiting(false); }
      case Force => stopper := Awaiting(true);
      case StopReturns => stopper := Free; Happen(HasStopped(true));
    }

    method Perform(a: Action)
      requires Valid() && Enabled(Now(), a) && (a.Scan? && a.scan.Read? ==> T.FaithfulRead(a.scan))
      modifies this
      ensures Valid() && run == old(run) + [a] && Now() == Do(old(Now()), a)
    {
      match a
      case Scan(who, x) => PerformScan(who, x);
      case Reap(x) => PerformReap(x);
      case Wait(x) => PerformWait(x);
      case Own(x) => PerformOwn(x);
    }

    /** What the other goroutines do before this one goes on. */
    method Others(acts: seq<Action>, me: Thread)
      requires Valid() && T.Faithful(acts) && (me.Reaper? ==> !reaper.Unborn?)
      modifies this
      ensures Valid() && old(run) <= run && PlaceOf(Now(), me) == old(PlaceOf(Now(), me))
      ensures !old(reaper.Unborn?) ==> !reaper.Unborn?
    {
      for i := 0 to |acts|
        invariant Valid() && old(run) <= run && PlaceOf(Now(), me) == old(PlaceOf(Now(), me))
        invariant !old(reaper.Unborn?) ==> !reaper.Unborn?
      {
        if ThreadOf(acts[i]) != me && Enabled(Now(), acts[i]) {
          OthersKeepPlace(Now(), acts[i], me);
          StepStaysBorn(Now(), acts[i]);
          Perform(acts[i]);
        }
      }
    }

    /** captureDevice: the first field that names a tunnel device. */
    method CaptureDevice(line: string) returns (name: string)
      ensures name == T.DeviceOf(line)
    {
      var fields := Fields(line);
      var i := 0;
      while i < |fields|
        invariant 0 <= i <= |fields| && T.Reported(line) == T.FirstDevice(fields[i..])
      {
        name := T.DeviceName(fields[i]);
        if T.IsTunnelDevice(name) { return; }
        i := i + 1;
      }
      name := "";
    }

    /** The body of scan's loop: the line is classified and emitted, whatever happens meanwhile. */
    method ScanLine(who: nat, text: string, script: Script)
      requires Valid() && !reaper.Unborn? && PlaceOf(Now(), Scanner(who)) == AtScanner(Reading)
      requires forall k :: T.Faithful(script(k))
      modifies this
      ensures Valid() && old(run) <= run && T.ReadOf(who, text) in run
      ensures T.Speaks(text, T.ReadOf(who, text).scan.kind)
      ensures PlaceOf(Now(), Scanner(who)) == AtScanner(Reading) && !reaper.Unborn?
    {
      var at := |log|;
      var x := ReadLine(who, text);
      PerformScan(who, x);
      ghost var read := run;
      assert read[|read| - 1] == T.ReadOf(who, text);
      EmitLine(who, script(at), script(at + 1));
      assert read <= run;
      T.TagIsNeutral(who == 1, text);
      T.ClassMeansPhrase(text, x.kind);
    }

    method ReadLine(who: nat, text: string) returns (x: ScanStep)
      ensures x == T.ReadStep(T.Tag(who == 1) + text) && x.Read? && !x.kind.Exit?
    {
      var line := T.Tag(who == 1) + text;
      var name := CaptureDevice(line);
      x := Read(line, T.Classify(line), name);
    }

    /** emit, with others at work before each of its sends. */
    method EmitLine(who: nat, first: seq<Action>, second: seq<Action>)
      requires Valid() && !reaper.Unborn? && who < |scanners| && !scanners[who].Reading?
      requires T.Faithful(first) && T.Faithful(second)
      modifies this
      ensures Valid() && old(run) <= run
      ensures PlaceOf(Now(), Scanner(who)) == AtScanner(Reading) && !reaper.Unborn?
    {
      Others(first, Scanner(who));
      if scanners[who].Signalling? {
        PerformScan(who, Signal);
        Others(second, Scanner(who));
      }
      PerformScan(who, Post);
    }

    /**
     WaitHandshakeContext: one select per round, whichever ready case the runtime picks; the timer
     at the latest when the rounds are used up. Nil means a handshake line has been scanned, a
     classified error carries a scanned line of its class or the exit message.
     */
    method WaitHandshakeContext(script: Script, picks: seq<Case>) returns (v: Verdict)
      requires Valid() && !waiting
      requires forall k :: T.Faithful(script(k))
      modifies this
      ensures Valid() && old(run) <= run && !waiting && HasWaited(v) in log
      ensures v.Up? ==> exists line :: T.Scanned(log, line) && T.Says(line, "initialization sequence completed")
      ensures v.Refused? && !v.event.kind.Exit? ==> T.Scanned(log, v.event.line) && T.Speaks(v.event.line, v.event.kind)
      ensures v.Refused? && v.event.kind.Exit? ==> exists stopped :: HasReaped(v.event.line, stopped) in log
    {
      PerformWait(BeginWait);
      v := Expired;
      var round := 0;
      while round < |picks| && waiting
        invariant Valid() && old(run) <= run && (waiting ==> v.Expired?) && (!waiting ==> HasWaited(v) in log)
        decreases |picks| - round
      {
        Others(script(round), Waiter);
        match picks[round] {
          case OnDone => v := Cancelled; PerformWait(Cancel);
          case OnTimer => PerformWait(Expire);
          case OnHandshake => if handshakeCh { v := Up; PerformWait(TakeToken); }
          case OnEvent =>
            if events != [] {
              if Decisive(events[0]) { v := Refused(events[0]); }
              PerformWait(TakeEvent);
            }
        }
        round := round + 1;
      }
      if waiting {
        Others(script(round), Waiter);
        PerformWait(Expire);
      }
      VerdictIsGrounded(run, v);
    }

    /** wait: the process ends, the exit is announced, the channel is closed. */
    method WaitProcess(status: string, script: Script)
      requires Valid() && reaper.Alive?
      requires forall k :: T.Faithful(script(k))
      modifies this
      ensures Valid() && old(run) <= run
      ensures reaper.Closed? && Count(log, HasClosed) == 1
    {
      PerformReap(ProcessExits(status));
      Others(script(0), Reaper);
      AnnounceExit(script(1));
      Others(script(2), Reaper);
      PerformReap(CloseExit);
      ClosedCounts(run);
    }

    method AnnounceExit(meanwhile: seq<Action>)
      requires Valid() && reaper.Gone? && T.Faithful(meanwhile)
      modifies this
      ensures Valid() && old(run) <= run && reaper.Closing?
    {
      PerformReap(ReadKilled);
      Others(meanwhile, Reaper);
      PerformReap(ReportExit);
    }

    /**
     Stop: killed is set first; a tunnel that was never started returns at once, any other only
     after its process was reaped. `returned` is false when the script ends before that.
     */
    method Stop(script: Script, rounds: nat, patience: nat) returns (returned: bool)
      requires Valid() && stopper.Free?
      requires forall k :: T.Faithful(script(k))
      modifies this
      ensures Valid() && old(run) <= run
      ensures old(reaper.Unborn?) ==> returned && killed
      ensures !old(reaper.Unborn?) && returned ==> reaper.Closed? && Count(log, HasClosed) == 1
      ensures !returned ==> stopper.Awaiting?
    {
      var started := !reaper.Unborn?;
      PerformOwn(BeginStop);
      if started { returned := AwaitExit(script, rounds, patience); } else { returned := true; }
    }

    method AwaitExit(script: Script, rounds: nat, patience: nat) returns (returned: bool)
      requires Valid() && stopper.Awaiting?
      requires forall k :: T.Faithful(script(k))
      modifies this
      ensures Valid() && old(run) <= run
      ensures returned ==> reaper.Closed? && Count(log, HasClosed) == 1
      ensures !returned ==> stopper.Awaiting?
    {
      for round := 0 to rounds
        invariant Valid() && old(run) <= run && stopper.Awaiting?
      {
        Others(script(round), Owner);
        if reaper.Closed? {
          PerformOwn(StopReturns);
          ClosedCounts(run);
          return true;
        }
        if round == patience { PerformOwn(Force); }
      }
      returned := false;
    }
  }

  lemma ClosedCounts(run: seq<Action>)
    requires Exec(run).Some?
    ensures Count(Exec(run).value.log, HasClosed) == if Exec(run).value.reaper.Closed? then 1 else 0
  {
    RunKeepsInv(run);
  }

  /** A started tunnel stays started. */
  lemma StepStaysBorn(s: State, a: Action)
    requires Enabled(s, a)
    ensures !s.reaper.Unborn? ==> !Do(s, a).reaper.Unborn?
  {
  }

  /** The two readings of a verdict, for the method that returns it. */
  lemma VerdictIsGrounded(run: seq<Action>, v: Verdict)
    requires Exec(run).Some? && T.Faithful(run) && HasWaited(v) in Exec(run).value.log
    ensures var log := Exec(run).value.log;
      && (v.Up? ==> exists line :: T.Scanned(log, line) && T.Says(line, "initialization sequence completed"))
      && (v.Refused? && !v.event.kind.Exit? ==> T.Scanned(log, v.event.line) && T.Speaks(v.event.line, v.event.kind))
      && (v.Refused? && v.event.kind.Exit? ==> exists stopped :: HasReaped(v.event.line, stopped) in log)
  {
    if v.Up? { var line := T.NilOnlyAfterHandshake(run); }
    if v.Refused? { T.ErrorsAreGenuine(run, v.event); }
  }
}
