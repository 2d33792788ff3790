/**
 The event and exit protocol of one tunnel under every interleaving of its two scanners, its
 reaper, the handshake waiter, later readers of the queue and Stop, for one successful Start. A
 line comes with the class and the device the scanner found in it.
 */
module TunnelMachine {
  import opened Common

  datatype Kind = Log | Handshake | AuthFail | TunFail | Fatal | Exit

  datatype Event = Event(kind: Kind, line: string)

  const QUEUE_SLOTS := 128

  // ---------- states and steps ----------

  datatype Scanner = Reading | Signalling(line: string) | Posting(event: Event)

  datatype Reaper = Unborn | Alive | Gone(status: string) | Reporting(text: string) | Closing | Closed

  datatype Stopper = Free | Awaiting(forced: bool)

  datatype Verdict = Up | Refused(event: Event) | Expired | Cancelled

  /** What has happened so far, in order. */
  datatype Happening =
    | HasRead(line: string, kind: Kind, device: string)
    | HasSignalled
    | HasPosted(event: Event)
    | HasDropped(event: Event)
    | HasReceived(event: Event)
    | HasReaped(text: string, stopped: bool)
    | HasClosed
    | HasWaited(verdict: Verdict)
    | HasStopped(started: bool)

  datatype State = State(
    token: bool, queue: seq<Event>, device: string, killed: bool,
    scanners: seq<Scanner>, reaper: Reaper, waiting: bool, stopper: Stopper,
    log: seq<Happening>
  )

  /** A scanner; a line that reports no device comes with the empty device name. */
  datatype ScanStep = Read(line: string, kind: Kind, device: string) | Signal | Post

  /** The goroutine that waits for the process. */
  datatype ReapStep = ProcessExits(status: string) | ReadKilled | ReportExit | CloseExit

  /** The handshake waiter, and whoever reads the queue when it does not. */
  datatype WaitStep = BeginWait | TakeToken | TakeEvent | Expire | Cancel | OtherReceives

  /** The owner of the tunnel. */
  datatype OwnerStep = Start(spawned: bool) | BeginStop | Force | StopReturns

  datatype Action = Scan(who: nat, scan: ScanStep) | Reap(reap: ReapStep) | Wait(wait: WaitStep) | Own(own: OwnerStep)

  function Init(): State { State(false, [], "", false, [Reading, Reading], Unborn, false, Free, []) }

  predicate ScanEnabled(s: State, who: nat, x: ScanStep) {
    who < |s.scanners| &&
    match x
    case Read(_, kind, _) => !s.reaper.Unborn? && s.scanners[who].Reading? && !kind.Exit?
    case Signal => s.scanners[who].Signalling?
    case Post => s.scanners[who].Posting?
  }

  predicate ReapEnabled(s: State, x: ReapStep) {
    match x
    case ProcessExits(_) => s.reaper.Alive?
    case ReadKilled => s.reaper.Gone?
    case ReportExit => s.reaper.Reporting?
    case CloseExit => s.reaper.Closing?
  }

  predicate WaitEnabled(s: State, x: WaitStep) {
    match x
    case BeginWait => !s.waiting
    case TakeToken => s.waiting && s.token
    case TakeEvent => s.waiting && s.queue != []
    case Expire => s.waiting
    case Cancel => s.waiting
    case OtherReceives => !s.waiting && s.queue != []
  }

  predicate OwnEnabled(s: State, x: OwnerStep) {
    match x
    case Start(_) => s.reaper.Unborn? && !s.waiting && s.stopper.Free?
    case BeginStop => s.stopper.Free?
    case Force => s.stopper.Awaiting?
    case StopReturns => s.stopper.Awaiting? && s.reaper.Closed?
  }

  predicate Enabled(s: State, a: Action) {
    match a
    case Scan(who, x) => ScanEnabled(s, who, x)
    case Reap(x) => ReapEnabled(s, x)
    case Wait(x) => WaitEnabled(s, x)
    case Own(x) => OwnEnabled(s, x)
  }

  function Happens(s: State, h: Happening): State { s.(log := s.log + [h]) }

  /** The non-blocking send on the event queue. */
  function Offer(s: State, e: Event): State {
    if |s.queue| < QUEUE_SLOTS then Happens(s.(queue := s.queue + [e]), HasPosted(e)) else Happens(s, HasDropped(e))
  }

  /** The events that end the wait for a handshake. */
  predicate Decisive(e: Event) { !e.kind.Log? && !e.kind.Handshake? }

  function SetScanner(s: State, who: nat, next: Scanner): State
    requires who < |s.scanners|
  {
    s.(scanners := s.scanners[who := next])
  }

  /** scan and classify up to the first channel operation. */
  function DoRead(s: State, who: nat, line: string, kind: Kind, device: string): State
    requires who < |s.scanners|
  {
    var noted := Happens(s.(device := if device != "" then device else s.device), HasRead(line, kind, device));
    SetScanner(noted, who, if kind.Handshake? then Signalling(line) else Posting(Event(kind, line)))
  }

  function DoReceive(s: State): State
    requires s.queue != []
  {
    Happens(s.(queue := s.queue[1..]), HasReceived(s.queue[0]))
  }

  function EndWait(s: State, v: Verdict): State { Happens(s.(waiting := false), HasWaited(v)) }

  function ExitText(killed: bool, status: string): string {
    if killed then "openvpn stopped" else "openvpn exited: " + status
  }

  function DoScan(s: State, who: nat, x: ScanStep): State
    requires ScanEnabled(s, who, x)
  {
    match x
    case Read(line, kind, device) => DoRead(s, who, line, kind, device)
    case Signal =>
      Happens(SetScanner(s.(token := true), who, Posting(Event(Handshake, s.scanners[who].line))), HasSignalled)
    case Post => Offer(SetScanner(s, who, Reading), s.scanners[who].event)
  }

  function DoReap(s: State, x: ReapStep): State
    requires ReapEnabled(s, x)
  {
    match x
    case ProcessExits(status) => s.(reaper := Gone(status))
    case ReadKilled =>
      var text := ExitText(s.killed, s.reaper.status);
      Happens(s.(reaper := Reporting(text)), HasReaped(text, s.killed))
    case ReportExit => Offer(s.(reaper := Closing), Event(Exit, s.reaper.text))
    case CloseExit => Happens(s.(reaper := Closed), HasClosed)
  }

  function DoWait(s: State, x: WaitStep): State
    requires WaitEnabled(s, x)
  {
    match x
    case BeginWait => s.(waiting := true)
    case TakeToken => EndWait(s.(token := false), Up)
    case TakeEvent => if Decisive(s.queue[0]) then EndWait(DoReceive(s), Refused(s.queue[0])) else DoReceive(s)
    case Expire => EndWait(s, Expired)
    case Cancel => EndWait(s, Cancelled)
    case OtherReceives => DoReceive(s)
  }

  function DoOwn(s: State, x: OwnerStep): State
    requires OwnEnabled(s, x)
  {
    match x
    case Start(spawned) => s.(killed := false, reaper := if spawned then Alive else Unborn)
    case BeginStop =>
      if s.reaper.Unborn? then Happens(s.(killed := true), HasStopped(false))
      else s.(killed := true, stopper := Awaiting(false))
    case Force => s.(stopper := Awaiting(true))
    case StopReturns => Happens(s.(stopper := Free), HasStopped(true))
  }

  function Do(s: State, a: Action): State
    requires Enabled(s, a)
  {
    match a
    case Scan(who, x) => DoScan(s, who, x)
    case Reap(x) => DoReap(s, x)
    case Wait(x) => DoWait(s, x)
    case Own(x) => DoOwn(s, x)
  }

  /** The state a schedule leads to; None if it asks for a step that is not possible. */
  function Exec(acts: seq<Action>): Option<State> {
    if acts == [] then Some(Init())
    else
      var before := Exec(acts[..|acts| - 1]);
      var last := acts[|acts| - 1];
      if before.Some? && Enabled(before.value, last) then Some(Do(before.value, last)) else None
  }

  // ---------- reading the log ----------

  /** Some handshake has been signalled since a waiter last took the token. */
  predicate SignalledSinceTake(log: seq<Happening>) {
    if log == [] then false
    else
      var last := log[|log| - 1];
      if last == HasSignalled then true
      else if last == HasWaited(Up) then false
      else SignalledSinceTake(log[..|log| - 1])
  }

  function Count(log: seq<Happening>, h: Happening): nat {
    if log == [] then 0 else (if log[|log| - 1] == h then 1 else 0) + Count(log[..|log| - 1], h)
  }

  predicate IsHandshakeLine(h: Happening) { h.HasRead? && h.kind.Handshake? }

  function HandshakeLines(log: seq<Happening>): nat {
    if log == [] then 0 else (if IsHandshakeLine(log[|log| - 1]) then 1 else 0) + HandshakeLines(log[..|log| - 1])
  }

  function Reaps(log: seq<Happening>): nat {
    if log == [] then 0 else (if log[|log| - 1].HasReaped? then 1 else 0) + Reaps(log[..|log| - 1])
  }

  function Accepted(log: seq<Happening>): seq<Event> {
    if log == [] then []
    else
      var last := log[|log| - 1];
      Accepted(log[..|log| - 1]) + if last.HasPosted? then [last.event] else []
  }

  function Delivered(log: seq<Happening>): seq<Event> {
    if log == [] then []
    else
      var last := log[|log| - 1];
      Delivered(log[..|log| - 1]) + if last.HasReceived? then [last.event] else []
  }

  /** Whenever an event was dropped, 128 accepted ones were still undelivered. */
  predicate DropsOnlyWhenFull(log: seq<Happening>) {
    log == [] ||
    (var last, before := log[|log| - 1], log[..|log| - 1];
     DropsOnlyWhenFull(before) &&
     (last.HasDropped? ==> |Accepted(before)| == |Delivered(before)| + QUEUE_SLOTS))
  }

  predicate HasReadAs(log: seq<Happening>, line: string, kind: Kind) {
    exists h :: h in log && h.HasRead? && h.line == line && h.kind == kind
  }

  predicate HasExitedAs(log: seq<Happening>, text: string) {
    exists h :: h in log && h.HasReaped? && h.text == text
  }

  /** The event was caused by something that happened: a line of its class, or the end of the process. */
  predicate Genuine(log: seq<Happening>, e: Event) {
    if e.kind.Exit? then HasExitedAs(log, e.line) else HasReadAs(log, e.line, e.kind)
  }

  predicate Announced(log: seq<Happening>, text: string) {
    HasPosted(Event(Exit, text)) in log || HasDropped(Event(Exit, text)) in log
  }

  // ---------- what every step keeps ----------

  function Pending(s: State): nat
    requires |s.scanners| == 2
  {
    (if s.scanners[0].Signalling? then 1 else 0) + (if s.scanners[1].Signalling? then 1 else 0)
  }

  /** The token and the signals that feed it. */
  predicate TokenInv(s: State) {
    && |s.scanners| == 2
    && s.token == SignalledSinceTake(s.log)
    && Count(s.log, HasWaited(Up)) + (if s.token then 1 else 0) <= Count(s.log, HasSignalled)
    && Count(s.log, HasSignalled) + Pending(s) == HandshakeLines(s.log)
  }

  predicate QueueInv(s: State) {
    |s.queue| <= QUEUE_SLOTS && Accepted(s.log) == Delivered(s.log) + s.queue && DropsOnlyWhenFull(s.log)
  }

  /** What one more happening changes in the readings of the log. */
  lemma AppendToken(log: seq<Happening>, h: Happening)
    ensures SignalledSinceTake(log + [h]) == (h == HasSignalled || (h != HasWaited(Up) && SignalledSinceTake(log)))
    ensures forall x :: Count(log + [h], x) == Count(log, x) + if h == x then 1 else 0
    ensures HandshakeLines(log + [h]) == HandshakeLines(log) + if IsHandshakeLine(h) then 1 else 0
  {
    assert (log + [h])[..|log|] == log;
  }

  lemma AppendQueue(log: seq<Happening>, h: Happening)
    ensures Accepted(log + [h]) == Accepted(log) + if h.HasPosted? then [h.event] else []
    ensures Delivered(log + [h]) == Delivered(log) + if h.HasReceived? then [h.event] else []
    ensures DropsOnlyWhenFull(log + [h]) <==>
              (DropsOnlyWhenFull(log) && (h.HasDropped? ==> |Accepted(log)| == |Delivered(log)| + QUEUE_SLOTS))
  {
    assert (log + [h])[..|log|] == log;
  }

  /** The happening concerns neither the token nor the signals. */
  lemma TokenFrame(s: State, t: State, h: Happening)
    requires TokenInv(s) && t.token == s.token && t.scanners == s.scanners && t.log == s.log + [h]
    requires h != HasSignalled && h != HasWaited(Up) && !h.HasRead?
    ensures TokenInv(t)
  {
    AppendToken(s.log, h);
  }

  lemma ReadToken(s: State, who: nat, line: string, kind: Kind, device: string)
    requires TokenInv(s) && who < 2 && s.scanners[who].Reading?
    ensures TokenInv(DoRead(s, who, line, kind, device))
  {
    AppendToken(s.log, HasRead(line, kind, device));
  }

  lemma SignalToken(s: State, who: nat)
    requires TokenInv(s) && ScanEnabled(s, who, Signal)
    ensures TokenInv(DoScan(s, who, Signal))
  {
    AppendToken(s.log, HasSignalled);
  }

  lemma ScanToken(s: State, who: nat, x: ScanStep)
    requires TokenInv(s) && ScanEnabled(s, who, x)
    ensures TokenInv(DoScan(s, who, x))
  {
    match x
    case Read(line, kind, device) => ReadToken(s, who, line, kind, device);
    case Signal => SignalToken(s, who);
    case Post => OfferToken(SetScanner(s, who, Reading), s.scanners[who].event);
  }

  lemma OfferToken(s: State, e: Event)
    requires TokenInv(s)
    ensures TokenInv(Offer(s, e))
  {
    TokenFrame(s, Offer(s, e), if |s.queue| < QUEUE_SLOTS then HasPosted(e) else HasDropped(e));
  }

  lemma ReapToken(s: State, x: ReapStep)
    requires TokenInv(s) && ReapEnabled(s, x)
    ensures TokenInv(DoReap(s, x))
  {
    match x
    case ProcessExits(_) =>
    case ReadKilled => TokenFrame(s, DoReap(s, x), HasReaped(ExitText(s.killed, s.reaper.status), s.killed));
    case ReportExit => OfferToken(s.(reaper := Closing), Event(Exit, s.reaper.text));
    case CloseExit => TokenFrame(s, DoReap(s, x), HasClosed);
  }

  lemma WaitToken(s: State, x: WaitStep)
    requires TokenInv(s) && WaitEnabled(s, x)
    ensures TokenInv(DoWait(s, x))
  {
    match x
    case BeginWait =>
    case TakeToken => AppendToken(s.log, HasWaited(Up));
    case TakeEvent =>
      var t := DoReceive(s);
      TokenFrame(s, t, HasReceived(s.queue[0]));
      if Decisive(s.queue[0]) { TokenFrame(t, DoWait(s, x), HasWaited(Refused(s.queue[0]))); }
    case Expire => TokenFrame(s, DoWait(s, x), HasWaited(Expired));
    case Cancel => TokenFrame(s, DoWait(s, x), HasWaited(Cancelled));
    case OtherReceives => TokenFrame(s, DoWait(s, x), HasReceived(s.queue[0]));
  }

  lemma OwnToken(s: State, x: OwnerStep)
    requires TokenInv(s) && OwnEnabled(s, x)
    ensures TokenInv(DoOwn(s, x))
  {
    match x
    case Start(_) =>
    case BeginStop => if s.reaper.Unborn? { TokenFrame(s, DoOwn(s, x), HasStopped(false)); }
    case Force =>
    case StopReturns => TokenFrame(s, DoOwn(s, x), HasStopped(true));
  }

  // ---------- the queue ----------

  lemma QueueFrame(s: State, t: State, h: Happening)
    requires QueueInv(s) && t.queue == s.queue && t.log == s.log + [h]
    requires !h.HasPosted? && !h.HasReceived? && !h.HasDropped?
    ensures QueueInv(t)
  {
    AppendQueue(s.log, h);
  }

  lemma OfferQueue(s: State, e: Event)
    requires QueueInv(s)
    ensures QueueInv(Offer(s, e))
  {
    if |s.queue| < QUEUE_SLOTS { AppendQueue(s.log, HasPosted(e)); } else { AppendQueue(s.log, HasDropped(e)); }
  }

  lemma ReceiveQueue(s: State)
    requires QueueInv(s) && s.queue != []
    ensures QueueInv(DoReceive(s))
  {
    AppendQueue(s.log, HasReceived(s.queue[0]));
    assert s.queue == [s.queue[0]] + s.queue[1..];
  }

  lemma ScanQueue(s: State, who: nat, x: ScanStep)
    requires QueueInv(s) && ScanEnabled(s, who, x)
    ensures QueueInv(DoScan(s, who, x))
  {
    match x
    case Read(line, kind, device) => QueueFrame(s, DoScan(s, who, x), HasRead(line, kind, device));
    case Signal => QueueFrame(s, DoScan(s, who, x), HasSignalled);
    case Post => OfferQueue(SetScanner(s, who, Reading), s.scanners[who].event);
  }

  lemma ReapQueue(s: State, x: ReapStep)
    requires QueueInv(s) && ReapEnabled(s, x)
    ensures QueueInv(DoReap(s, x))
  {
    match x
    case ProcessExits(_) =>
    case ReadKilled => QueueFrame(s, DoReap(s, x), HasReaped(ExitText(s.killed, s.reaper.status), s.killed));
    case ReportExit => OfferQueue(s.(reaper := Closing), Event(Exit, s.reaper.text));
    case CloseExit => QueueFrame(s, DoReap(s, x), HasClosed);
  }

  lemma WaitQueue(s: State, x: WaitStep)
    requires QueueInv(s) && WaitEnabled(s, x)
    ensures QueueInv(DoWait(s, x))
  {
    match x
    case BeginWait =>
    case TakeToken => QueueFrame(s, DoWait(s, x), HasWaited(Up));
    case TakeEvent =>
      ReceiveQueue(s);
      if Decisive(s.queue[0]) { QueueFrame(DoReceive(s), DoWait(s, x), HasWaited(Refused(s.queue[0]))); }
    case Expire => QueueFrame(s, DoWait(s, x), HasWaited(Expired));
    case Cancel => QueueFrame(s, DoWait(s, x), HasWaited(Cancelled));
    case OtherReceives => ReceiveQueue(s);
  }

  lemma OwnQueue(s: State, x: OwnerStep)
    requires QueueInv(s) && OwnEnabled(s, x)
    ensures QueueInv(DoOwn(s, x))
  {
    match x
    case Start(_) =>
    case BeginStop => if s.reaper.Unborn? { QueueFrame(s, DoOwn(s, x), HasStopped(false)); }
    case Force =>
    case StopReturns => QueueFrame(s, DoOwn(s, x), HasStopped(true));
  }

  // ---------- causes ----------

  /** Events in flight, in the queue or in a verdict were caused by something that happened. */
  ghost predicate CauseInv(s: State) {
    && (forall w :: 0 <= w < |s.scanners| && s.scanners[w].Signalling? ==> HasReadAs(s.log, s.scanners[w].line, Handshake))
    && (forall w :: 0 <= w < |s.scanners| && s.scanners[w].Posting? ==> Genuine(s.log, s.scanners[w].event))
    && (forall e :: e in s.queue ==> Genuine(s.log, e))
    && (s.reaper.Reporting? ==> HasExitedAs(s.log, s.reaper.text))
    && (forall e {:trigger HasWaited(Refused(e))} :: HasWaited(Refused(e)) in s.log ==> Decisive(e) && Genuine(s.log, e))
    && (s.device != "" ==> exists h :: h in s.log && h.HasRead? && h.device == s.device)
  }

  lemma Later(log: seq<Happening>, h: Happening)
    ensures forall e :: Genuine(log, e) ==> Genuine(log + [h], e)
    ensures forall l, k :: HasReadAs(log, l, k) ==> HasReadAs(log + [h], l, k)
    ensures forall t :: HasExitedAs(log, t) ==> HasExitedAs(log + [h], t)
  {
    assert forall x :: x in log ==> x in log + [h];
  }

  lemma CauseFrame(s: State, t: State, h: Happening)
    requires CauseInv(s) && t.log == s.log + [h]
    requires h.HasWaited? && h.verdict.Refused? ==> Decisive(h.verdict.event) && Genuine(s.log, h.verdict.event)
    requires t.queue == s.queue && t.scanners == s.scanners && t.reaper == s.reaper && t.device == s.device
    ensures CauseInv(t)
  {
    Later(s.log, h);
  }

  lemma CauseOffer(s: State, e: Event)
    requires CauseInv(s) && Genuine(s.log, e)
    ensures CauseInv(Offer(s, e))
  {
    Later(s.log, if |s.queue| < QUEUE_SLOTS then HasPosted(e) else HasDropped(e));
  }

  lemma CauseReceive(s: State)
    requires CauseInv(s) && s.queue != []
    ensures CauseInv(DoReceive(s))
  {
    Later(s.log, HasReceived(s.queue[0]));
  }

  lemma ReadCause(s: State, who: nat, line: string, kind: Kind, device: string)
    requires CauseInv(s) && who < |s.scanners| && s.scanners[who].Reading? && !kind.Exit?
    ensures CauseInv(DoRead(s, who, line, kind, device))
  {
    var h := HasRead(line, kind, device);
    Later(s.log, h);
    assert h in s.log + [h];
    assert HasReadAs(s.log + [h], line, kind);
  }

  lemma ScanCause(s: State, who: nat, x: ScanStep)
    requires CauseInv(s) && ScanEnabled(s, who, x)
    ensures CauseInv(DoScan(s, who, x))
  {
    match x
    case Read(line, kind, device) => ReadCause(s, who, line, kind, device);
    case Signal =>
      Later(s.log, HasSignalled);
    case Post =>
      CauseOffer(SetScanner(s, who, Reading), s.scanners[who].event);
  }

  lemma ReapCause(s: State, x: ReapStep)
    requires CauseInv(s) && ReapEnabled(s, x)
    ensures CauseInv(DoReap(s, x))
  {
    match x
    case ProcessExits(_) =>
    case ReadKilled =>
      var h := HasReaped(ExitText(s.killed, s.reaper.status), s.killed);
      Later(s.log, h);
      assert h in s.log + [h];
    case ReportExit => CauseOffer(s.(reaper := Closing), Event(Exit, s.reaper.text));
    case CloseExit => Later(s.log, HasClosed);
  }

  lemma WaitCause(s: State, x: WaitStep)
    requires CauseInv(s) && WaitEnabled(s, x)
    ensures CauseInv(DoWait(s, x))
  {
    match x
    case BeginWait =>
    case TakeToken => CauseFrame(s, DoWait(s, x), HasWaited(Up));
    case TakeEvent =>
      CauseReceive(s);
      Later(s.log, HasReceived(s.queue[0]));
      if Decisive(s.queue[0]) { CauseFrame(DoReceive(s), DoWait(s, x), HasWaited(Refused(s.queue[0]))); }
    case Expire => CauseFrame(s, DoWait(s, x), HasWaited(Expired));
    case Cancel => CauseFrame(s, DoWait(s, x), HasWaited(Cancelled));
    case OtherReceives => CauseReceive(s);
  }

  lemma OwnCause(s: State, x: OwnerStep)
    requires CauseInv(s) && OwnEnabled(s, x)
    ensures CauseInv(DoOwn(s, x))
  {
    match x
    case Start(_) =>
    case BeginStop => if s.reaper.Unborn? { CauseFrame(s, DoOwn(s, x), HasStopped(false)); }
    case Force =>
    case StopReturns => CauseFrame(s, DoOwn(s, x), HasStopped(true));
  }

  // ---------- the end of the process ----------

  predicate BeforeReport(r: Reaper) { r.Unborn? || r.Alive? || r.Gone? }

  /** The channel is closed once, Stop waits for that, and the exit is announced once, before. */
  ghost predicate ExitInv(s: State) {
    && Count(s.log, HasClosed) == (if s.reaper.Closed? then 1 else 0)
    && (HasStopped(true) in s.log ==> s.reaper.Closed?)
    && (s.stopper.Awaiting? ==> !s.reaper.Unborn? && s.killed)
    && Reaps(s.log) == (if BeforeReport(s.reaper) then 0 else 1)
    && (forall h :: h in s.log && h.HasReaped? ==>
          && !BeforeReport(s.reaper) && (h.stopped ==> s.killed)
          && (s.reaper.Reporting? ==> h.text == s.reaper.text)
          && (s.reaper.Closing? || s.reaper.Closed? ==> Announced(s.log, h.text)))
  }

  lemma AppendExit(log: seq<Happening>, h: Happening)
    ensures Count(log + [h], HasClosed) == Count(log, HasClosed) + if h == HasClosed then 1 else 0
    ensures Reaps(log + [h]) == Reaps(log) + if h.HasReaped? then 1 else 0
    ensures forall x :: x in log + [h] <==> x in log || x == h
    ensures forall t :: Announced(log, t) ==> Announced(log + [h], t)
  {
    assert (log + [h])[..|log|] == log;
  }

  lemma ExitFrame(s: State, t: State, h: Happening)
    requires ExitInv(s) && t.log == s.log + [h]
    requires !h.HasReaped? && h != HasClosed && h != HasStopped(true)
    requires t.reaper == s.reaper && t.stopper == s.stopper && (s.killed ==> t.killed)
    ensures ExitInv(t)
  {
    AppendExit(s.log, h);
  }

  lemma OfferExit(s: State, e: Event)
    requires ExitInv(s)
    ensures ExitInv(Offer(s, e))
  {
    ExitFrame(s, Offer(s, e), if |s.queue| < QUEUE_SLOTS then HasPosted(e) else HasDropped(e));
  }

  lemma ScanExit(s: State, who: nat, x: ScanStep)
    requires ExitInv(s) && ScanEnabled(s, who, x)
    ensures ExitInv(DoScan(s, who, x))
  {
    match x
    case Read(line, kind, device) => ExitFrame(s, DoScan(s, who, x), HasRead(line, kind, device));
    case Signal => ExitFrame(s, DoScan(s, who, x), HasSignalled);
    case Post => OfferExit(SetScanner(s, who, Reading), s.scanners[who].event);
  }

  /** The exit is noted: from now on it is to be reported. */
  lemma ReapedFrame(s: State, t: State, h: Happening)
    requires ExitInv(s) && s.reaper.Gone? && h.HasReaped? && (h.stopped ==> s.killed)
    requires t.log == s.log + [h] && t.reaper == Reporting(h.text)
    requires t.stopper == s.stopper && t.killed == s.killed
    ensures ExitInv(t)
  {
    AppendExit(s.log, h);
    assert forall x :: x in s.log ==> !x.HasReaped?;
  }

  lemma ReadKilledExit(s: State)
    requires ExitInv(s) && s.reaper.Gone?
    ensures ExitInv(DoReap(s, ReadKilled))
  {
    ReapedFrame(s, DoReap(s, ReadKilled), HasReaped(ExitText(s.killed, s.reaper.status), s.killed));
  }

  lemma ReportExitExit(s: State)
    requires ExitInv(s) && s.reaper.Reporting?
    ensures ExitInv(DoReap(s, ReportExit))
  {
    var e := Event(Exit, s.reaper.text);
    AppendExit(s.log, if |s.queue| < QUEUE_SLOTS then HasPosted(e) else HasDropped(e));
  }

  lemma ReapExit(s: State, x: ReapStep)
    requires ExitInv(s) && ReapEnabled(s, x)
    ensures ExitInv(DoReap(s, x))
  {
    match x
    case ProcessExits(_) =>
    case ReadKilled => ReadKilledExit(s);
    case ReportExit => ReportExitExit(s);
    case CloseExit => AppendExit(s.log, HasClosed);
  }

  lemma WaitExit(s: State, x: WaitStep)
    requires ExitInv(s) && WaitEnabled(s, x)
    ensures ExitInv(DoWait(s, x))
  {
    match x
    case BeginWait =>
    case TakeToken => ExitFrame(s, DoWait(s, x), HasWaited(Up));
    case TakeEvent =>
      var t := DoReceive(s);
      ExitFrame(s, t, HasReceived(s.queue[0]));
      if Decisive(s.queue[0]) { ExitFrame(t, DoWait(s, x), HasWaited(Refused(s.queue[0]))); }
    case Expire => ExitFrame(s, DoWait(s, x), HasWaited(Expired));
    case Cancel => ExitFrame(s, DoWait(s, x), HasWaited(Cancelled));
    case OtherReceives => ExitFrame(s, DoWait(s, x), HasReceived(s.queue[0]));
  }

  lemma OwnExit(s: State, x: OwnerStep)
    requires ExitInv(s) && OwnEnabled(s, x)
    ensures ExitInv(DoOwn(s, x))
  {
    match x
    case Start(_) =>
    case BeginStop => if s.reaper.Unborn? { ExitFrame(s, DoOwn(s, x), HasStopped(false)); }
    case Force =>
    case StopReturns => AppendExit(s.log, HasStopped(true));
  }

  // ---------- runs ----------

  ghost predicate Inv(s: State) { TokenInv(s) && QueueInv(s) && CauseInv(s) && ExitInv(s) }

  lemma StepKeepsInv(s: State, a: Action)
    requires Inv(s) && Enabled(s, a)
    ensures Inv(Do(s, a))
  {
    match a
    case Scan(who, x) => ScanToken(s, who, x); ScanQueue(s, who, x); ScanCause(s, who, x); ScanExit(s, who, x);
    case Reap(x) => ReapToken(s, x); ReapQueue(s, x); ReapCause(s, x); ReapExit(s, x);
    case Wait(x) => WaitToken(s, x); WaitQueue(s, x); WaitCause(s, x); WaitExit(s, x);
    case Own(x) => OwnToken(s, x); OwnQueue(s, x); OwnCause(s, x); OwnExit(s, x);
  }

  lemma {:induction false} RunKeepsInv(acts: seq<Action>)
    requires Exec(acts).Some?
    ensures Inv(Exec(acts).value)
  {
    if acts != [] {
      RunKeepsInv(acts[..|acts| - 1]);
      StepKeepsInv(Exec(acts[..|acts| - 1]).value, acts[|acts| - 1]);
    }
  }

  /**
     The token stands for a handshake signalled and not yet taken, however full the queue is; every
     signal stems from its own handshake line, and every successful wait from its own signal.
   */
  lemma {:induction false} TokenMeansHandshake(acts: seq<Action>)
    requires Exec(acts).Some?
    ensures var s := Exec(acts).value;
      && s.token == SignalledSinceTake(s.log)
      && Count(s.log, HasWaited(Up)) <= Count(s.log, HasSignalled) <= HandshakeLines(s.log)
      && (s.scanners == [Reading, Reading] ==> Count(s.log, HasSignalled) == HandshakeLines(s.log))
  {
    RunKeepsInv(acts);
  }

  /** Events are delivered in the order accepted, each once, and dropped only at 128 undelivered ones. */
  lemma {:induction false} QueueIsLossyFifo(acts: seq<Action>)
    requires Exec(acts).Some?
    ensures var s := Exec(acts).value;
      Accepted(s.log) == Delivered(s.log) + s.queue && |s.queue| <= 128 && DropsOnlyWhenFull(s.log)
  {
    RunKeepsInv(acts);
  }

  /**
     The exit channel is closed at most once, after the exit was announced; a Stop of a started
     tunnel has not returned before that, and the exit is called a stop only if Stop was called.
   */
  lemma {:induction false} StopWaitsForTheReaper(acts: seq<Action>)
    requires Exec(acts).Some?
    ensures var s := Exec(acts).value;
      && Count(s.log, HasClosed) <= 1
      && (HasStopped(true) in s.log ==> Count(s.log, HasClosed) == 1)
      && (s.reaper.Closed? ==> Reaps(s.log) == 1 && forall h :: h in s.log && h.HasReaped? ==> Announced(s.log, h.text))
      && (forall h :: h in s.log && h.HasReaped? && h.stopped ==> s.killed)
  {
    RunKeepsInv(acts);
  }

  // ---------- what device and exit message say ----------

  /** The device of the latest line that reported one. */
  function LatestDevice(log: seq<Happening>): string {
    if log == [] then ""
    else
      var last := log[|log| - 1];
      if last.HasRead? && last.device != "" then last.device else LatestDevice(log[..|log| - 1])
  }

  predicate HonestExit(h: Happening) {
    h.HasReaped? ==>
      if h.stopped then h.text == "openvpn stopped"
      else |h.text| >= 16 && h.text[..16] == "openvpn exited: "
  }

  ghost predicate ReportInv(s: State) { s.device == LatestDevice(s.log) && forall h :: h in s.log ==> HonestExit(h) }

  lemma ReportAppend(s: State, t: State, h: Happening)
    requires ReportInv(s) && t.log == s.log + [h] && HonestExit(h)
    requires t.device == if h.HasRead? && h.device != "" then h.device else s.device
    ensures ReportInv(t)
  {
    assert t.log[..|s.log|] == s.log;
  }

  lemma ExitTextIsHonest(killed: bool, status: string)
    ensures HonestExit(HasReaped(ExitText(killed, status), killed))
  {
    if !killed { assert ExitText(killed, status)[..16] == "openvpn exited: "; }
  }

  lemma OfferReport(s: State, e: Event)
    requires ReportInv(s)
    ensures ReportInv(Offer(s, e))
  {
    ReportAppend(s, Offer(s, e), if |s.queue| < QUEUE_SLOTS then HasPosted(e) else HasDropped(e));
  }

  lemma ScanReport(s: State, who: nat, x: ScanStep)
    requires ReportInv(s) && ScanEnabled(s, who, x)
    ensures ReportInv(DoScan(s, who, x))
  {
    match x
    case Read(line, kind, device) => ReportAppend(s, DoScan(s, who, x), HasRead(line, kind, device));
    case Signal => ReportAppend(s, DoScan(s, who, x), HasSignalled);
    case Post => OfferReport(SetScanner(s, who, Reading), s.scanners[who].event);
  }

  lemma ReapReport(s: State, x: ReapStep)
    requires ReportInv(s) && ReapEnabled(s, x)
    ensures ReportInv(DoReap(s, x))
  {
    match x
    case ProcessExits(_) =>
    case ReadKilled =>
      ExitTextIsHonest(s.killed, s.reaper.status);
      ReportAppend(s, DoReap(s, x), HasReaped(ExitText(s.killed, s.reaper.status), s.killed));
    case ReportExit => OfferReport(s.(reaper := Closing), Event(Exit, s.reaper.text));
    case CloseExit => ReportAppend(s, DoReap(s, x), HasClosed);
  }

  lemma WaitReport(s: State, x: WaitStep)
    requires ReportInv(s) && WaitEnabled(s, x)
    ensures ReportInv(DoWait(s, x))
  {
    match x
    case BeginWait =>
    case TakeToken => ReportAppend(s, DoWait(s, x), HasWaited(Up));
    case TakeEvent =>
      var t := DoReceive(s);
      ReportAppend(s, t, HasReceived(s.queue[0]));
      if Decisive(s.queue[0]) { ReportAppend(t, DoWait(s, x), HasWaited(Refused(s.queue[0]))); }
    case Expire => ReportAppend(s, DoWait(s, x), HasWaited(Expired));
    case Cancel => ReportAppend(s, DoWait(s, x), HasWaited(Cancelled));
    case OtherReceives => ReportAppend(s, DoWait(s, x), HasReceived(s.queue[0]));
  }

  lemma OwnReport(s: State, x: OwnerStep)
    requires ReportInv(s) && OwnEnabled(s, x)
    ensures ReportInv(DoOwn(s, x))
  {
    match x
    case Start(_) =>
    case BeginStop => if s.reaper.Unborn? { ReportAppend(s, DoOwn(s, x), HasStopped(false)); }
    case Force =>
    case StopReturns => ReportAppend(s, DoOwn(s, x), HasStopped(true));
  }

  /**
     In every schedule the device is that of the latest line that reported one, and the exit message
     says that openvpn was stopped exactly if Stop had been called when the reaper looked.
   */
  lemma {:induction false} ReportsAreLatest(acts: seq<Action>)
    requires Exec(acts).Some?
    ensures var s := Exec(acts).value; s.device == LatestDevice(s.log) && forall h :: h in s.log ==> HonestExit(h)
  {
    if acts != [] {
      ReportsAreLatest(acts[..|acts| - 1]);
      var s := Exec(acts[..|acts| - 1]).value;
      match acts[|acts| - 1]
      case Scan(who, x) => ScanReport(s, who, x);
      case Reap(x) => ReapReport(s, x);
      case Wait(x) => WaitReport(s, x);
      case Own(x) => OwnReport(s, x);
    }
  }

  /** A waiter that takes an event goes on waiting exactly if it is a log or a handshake line; else it returns that event. */
  lemma WaitEndsExactly(acts: seq<Action>)
    requires Exec(acts).Some? && Exec(acts + [Wait(TakeEvent)]).Some?
    ensures var s, t := Exec(acts).value, Exec(acts + [Wait(TakeEvent)]).value;
      && s.queue != [] && t.queue == s.queue[1..]
      && (t.waiting <==> s.queue[0].kind in {Log, Handshake})
      && (!t.waiting ==> t.log == s.log + [HasReceived(s.queue[0]), HasWaited(Refused(s.queue[0]))])
  {
    assert (acts + [Wait(TakeEvent)])[..|acts|] == acts;
  }

  /** How far the reaper is from closing the channel once the process has ended. */
  function ReaperRank(r: Reaper): nat {
    match r
    case Unborn => 5
    case Alive => 4
    case Gone(_) => 3
    case Reporting(_) => 2
    case Closing => 1
    case Closed => 0
  }

  /**
     Once the process has ended nothing can hold the reaper up, so a waiting Stop returns: the next
     reaper step is always possible and no step of anyone leads away from the closed channel.
   */
  lemma ReaperNeverBlocks(s: State, a: Action)
    requires Enabled(s, a) && ReaperRank(s.reaper) <= 3
    ensures ReaperRank(Do(s, a).reaper) <= ReaperRank(s.reaper)
    ensures a.Reap? ==> ReaperRank(Do(s, a).reaper) < ReaperRank(s.reaper)
    ensures s.reaper.Closed? || exists x :: ReapEnabled(s, x)
    ensures s.reaper.Closed? && s.stopper.Awaiting? ==> OwnEnabled(s, StopReturns)
  {
    if s.reaper.Gone? { assert ReapEnabled(s, ReadKilled); }
    if s.reaper.Reporting? { assert ReapEnabled(s, ReportExit); }
    if s.reaper.Closing? { assert ReapEnabled(s, CloseExit); }
  }

  // ---------- what the queue can lose ----------

  lemma ExecStep(acts: seq<Action>, a: Action)
    requires Exec(acts).Some? && Enabled(Exec(acts).value, a)
    ensures Exec(acts + [a]) == Some(Do(Exec(acts).value, a))
  {
    assert (acts + [a])[..|acts|] == acts;
  }

  /** Scanners never post an exit, and none is queued before the reaper reports it. */
  predicate NoExitYet(s: State) {
    && (forall w :: 0 <= w < |s.scanners| && s.scanners[w].Posting? ==> !s.scanners[w].event.kind.Exit?)
    && (BeforeReport(s.reaper) || s.reaper.Reporting? ==> forall e :: e in s.queue ==> !e.kind.Exit?)
  }

  lemma ScanNoExit(s: State, who: nat, x: ScanStep)
    requires NoExitYet(s) && ScanEnabled(s, who, x)
    ensures NoExitYet(DoScan(s, who, x))
  {
    match x
    case Read(line, kind, device) =>
    case Signal =>
    case Post =>
  }

  lemma ReapNoExit(s: State, x: ReapStep)
    requires NoExitYet(s) && ReapEnabled(s, x)
    ensures NoExitYet(DoReap(s, x))
  {
  }

  /** Waiters and owners only take events out. */
  lemma FewerEvents(s: State, t: State)
    requires NoExitYet(s) && t.scanners == s.scanners
    requires t.queue == s.queue || (s.queue != [] && t.queue == s.queue[1..])
    requires BeforeReport(t.reaper) || t.reaper.Reporting? ==> BeforeReport(s.reaper) || s.reaper.Reporting?
    ensures NoExitYet(t)
  {
  }

  lemma StepKeepsNoExit(s: State, a: Action)
    requires NoExitYet(s) && Enabled(s, a)
    ensures NoExitYet(Do(s, a))
  {
    match a
    case Scan(who, x) => ScanNoExit(s, who, x);
    case Reap(x) => ReapNoExit(s, x);
    case Wait(x) => FewerEvents(s, DoWait(s, x));
    case Own(x) => FewerEvents(s, DoOwn(s, x));
  }

  lemma {:induction false} RunKeepsNoExit(acts: seq<Action>)
    requires Exec(acts).Some?
    ensures NoExitYet(Exec(acts).value)
  {
    if acts != [] {
      RunKeepsNoExit(acts[..|acts| - 1]);
      StepKeepsNoExit(Exec(acts[..|acts| - 1]).value, acts[|acts| - 1]);
    }
  }

  lemma ReportDrops(s: State)
    requires QueueInv(s) && NoExitYet(s) && s.reaper.Reporting?
    ensures var t, e := DoReap(s, ReportExit), Event(Exit, s.reaper.text);
      if |Accepted(s.log)| == |Delivered(s.log)| + QUEUE_SLOTS
      then t.log == s.log + [HasDropped(e)] && e !in t.queue
      else t.log == s.log + [HasPosted(e)] && e in t.queue
  {
    assert |Accepted(s.log)| == |Delivered(s.log)| + |s.queue|;
  }

  /**
     In every schedule, the exit that is about to be reported is lost exactly if 128 accepted events
     are still undelivered at that moment; otherwise it is queued behind them.
   */
  lemma {:induction false} ExitIsLostExactly(acts: seq<Action>)
    requires Exec(acts).Some? && Exec(acts).value.reaper.Reporting?
    ensures Enabled(Exec(acts).value, Reap(ReportExit))
    ensures var s := Exec(acts).value; var t, e := Do(s, Reap(ReportExit)), Event(Exit, s.reaper.text);
      if |Accepted(s.log)| == |Delivered(s.log)| + 128
      then t.log == s.log + [HasDropped(e)] && e !in t.queue
      else t.log == s.log + [HasPosted(e)] && e in t.queue
  {
    QueueIsLossyFifo(acts);
    RunKeepsNoExit(acts);
    ReportDrops(Exec(acts).value);
  }

  /** A live tunnel nobody reads from, with so many ordinary lines in its queue. */
  predicate Flooded(s: State, n: nat) {
    && |s.queue| == n && (forall e :: e in s.queue ==> e.kind.Log?)
    && |s.scanners| == 2 && s.scanners[0].Reading? && s.reaper.Alive? && !s.token
  }

  lemma {:induction false} Flood(n: nat) returns (acts: seq<Action>)
    requires n <= QUEUE_SLOTS
    ensures Exec(acts).Some? && Flooded(Exec(acts).value, n)
  {
    if n == 0 {
      acts := [] + [Own(Start(true))];
      ExecStep([], Own(Start(true)));
    } else {
      var before := Flood(n - 1);
      ExecStep(before, Scan(0, Read("", Log, "")));
      ExecStep(before + [Scan(0, Read("", Log, ""))], Scan(0, Post));
      acts := before + [Scan(0, Read("", Log, ""))] + [Scan(0, Post)];
    }
  }

  /**
     The exit event can be lost for good: with 128 unread lines queued, the process can end, be
     announced and be closed while the queue holds nothing that would end a wait.
   */
  lemma ExitCanBeLost() returns (acts: seq<Action>)
    ensures Exec(acts).Some?
    ensures var s := Exec(acts).value; s.reaper.Closed? && !s.token && forall e :: e in s.queue ==> !Decisive(e)
  {
    acts := Flood(QUEUE_SLOTS);
    ExecStep(acts, Reap(ProcessExits("")));
    acts := acts + [Reap(ProcessExits(""))];
    ExecStep(acts, Reap(ReadKilled));
    acts := acts + [Reap(ReadKilled)];
    ExecStep(acts, Reap(ReportExit));
    acts := acts + [Reap(ReportExit)];
    ExecStep(acts, Reap(CloseExit));
    acts := acts + [Reap(CloseExit)];
  }
}
