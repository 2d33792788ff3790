/**
 The SOCKS5 client talking to the SOCKS5 server over two byte queues: every fragmentation of
 every read, every interleaving of the two ends, and the end of the stream when one closes.
 */
module SocksPair {
  import opened Socks

  /** Both configurations, the outcome of the dial, and what the dialled host sends first. */
  datatype Setup = Setup(client: Client, server: Server, dial: Dialer, banner: Bytes)

  datatype Net = Net(
    cpc: ClientPc, cgot: Bytes,               // client: state and the bytes of its unfinished read
    spc: ServerPc, sgot: Bytes, br: Bytes,    // server: the same, and its buffered reader
    c2s: Bytes, s2c: Bytes,                   // bytes in flight
    dialled: seq<(Address, nat)>,             // history: every address dialled
    relayed: nat                              // bytes of the banner relayed so far
  )

  function Start(): Net { Net(Greet, [], Peek, [], [], [], [], [], 0) }

  /** No read holds more bytes than it asked for. */
  predicate NetOk(n: Net) {
    && AddressSized(n.spc)
    && |n.cgot| <= ClientNeed(n.cpc)
    && |n.sgot| <= ServerNeed(n.spc)
  }

  datatype Move =
    | ClientReceive(k: nat) | ClientStep | ClientEof
    | Fill(k: nat) | ServerReceive(k: nat) | ServerPeek | ServerStep | ServerEnds
    | RelayWrite(k: nat)

  predicate ServerReading(pc: ServerPc) { !ServerDone(pc) && !pc.Peek? }

  predicate Enabled(u: Setup, n: Net, m: Move) {
    match m
    case ClientReceive(k) => !ClientDone(n.cpc) && 1 <= k <= |n.s2c| && |n.cgot| + k <= ClientNeed(n.cpc)
    case ClientStep => !ClientDone(n.cpc) && |n.cgot| == ClientNeed(n.cpc)
    case ClientEof => !ClientDone(n.cpc) && |n.cgot| < ClientNeed(n.cpc) && n.s2c == [] && n.spc.Closed?
    case Fill(k) => !ServerDone(n.spc) && 1 <= k <= |n.c2s|
    case ServerReceive(k) => ServerReading(n.spc) && 1 <= k <= |n.br| && |n.sgot| + k <= ServerNeed(n.spc)
    case ServerPeek => n.spc.Peek? && n.br != []
    case ServerStep => ServerReading(n.spc) && |n.sgot| == ServerNeed(n.spc)
    case ServerEnds =>
      && !ServerDone(n.spc) && n.cpc.Failed? && n.br == [] && n.c2s == []
      && (n.spc.Peek? || |n.sgot| < ServerNeed(n.spc))
    case RelayWrite(k) => n.spc.Relay? && 1 <= k <= |u.banner| - n.relayed
  }

  function Apply(u: Setup, n: Net, m: Move): (r: Net)
    requires NetOk(n) && Enabled(u, n, m)
    ensures NetOk(r)
  {
    match m
    case ClientReceive(k) => n.(cgot := n.cgot + n.s2c[..k], s2c := n.s2c[k..])
    case ClientStep =>
      var step := ClientAct(u.client, n.cpc, n.cgot);
      n.(cpc := step.pc, cgot := [], c2s := n.c2s + step.out)
    case ClientEof => n.(cpc := Failed, cgot := [])
    case Fill(k) => n.(br := n.br + n.c2s[..k], c2s := n.c2s[k..])
    case ServerReceive(k) => n.(sgot := n.sgot + n.br[..k], br := n.br[k..])
    case ServerPeek => n.(spc := if n.br[0] == 5 then ReadGreeting else Http)
    case ServerStep =>
      var step := ServerAct(u.server, u.dial, n.spc, n.sgot);
      n.(spc := step.pc, sgot := [], s2c := n.s2c + step.out,
         dialled := if n.spc.Dial? then n.dialled + [(n.spc.host, n.spc.port)] else n.dialled)
    case ServerEnds => n.(spc := Closed, sgot := [], s2c := n.s2c + ServerEof(n.spc))
    case RelayWrite(k) => n.(s2c := n.s2c + u.banner[n.relayed..n.relayed + k], relayed := n.relayed + k)
  }

  ghost predicate CanMove(u: Setup, n: Net) { exists m :: Enabled(u, n, m) }

  ghost predicate LeadsTo(u: Setup, n: Net, r: Net) {
    NetOk(n) && exists m :: Enabled(u, n, m) && r == Apply(u, n, m)
  }

  /** A run: the states passed through, from the start. */
  ghost predicate IsRun(u: Setup, run: seq<Net>) {
    run != [] && run[0] == Start() && forall i, j :: 0 <= i && j == i + 1 < |run| ==> LeadsTo(u, run[i], run[j])
  }

  predicate Final(u: Setup, n: Net) {
    ClientDone(n.cpc) && (n.spc.Closed? || n.spc.Http? || (n.spc.Relay? && n.relayed == |u.banner|))
  }

  // ---------- when the handshake succeeds ----------

  predicate CredentialsFit(c: Client) { |c.user| <= 255 && |c.pass| <= 255 }

  predicate CredentialsMatch(u: Setup) { u.client.user == u.server.user && u.client.pass == u.server.pass }

  predicate Authorized(u: Setup) {
    u.server.AuthOn() ==> u.client.user != [] && CredentialsFit(u.client) && CredentialsMatch(u)
  }

  predicate TargetFits(c: Client) {
    c.target.Target? && (c.target.host.Domain? ==> |c.target.host.name| <= 255)
  }

  predicate Succeeds(u: Setup) {
    Authorized(u) && TargetFits(u.client) && u.dial(u.client.target.host, u.client.target.port % 65536)
  }

  // ---------- the invariant ----------

  /** What remains of a net when the places its bytes lie in are forgotten. */
  datatype View = View(cpc: ClientPc, cin: Bytes, spc: ServerPc, sin: Bytes, dialled: seq<(Address, nat)>, relayed: nat)

  function ViewOf(n: Net): View {
    View(n.cpc, n.cgot + n.s2c, n.spc, n.sgot + (n.br + n.c2s), n.dialled, n.relayed)
  }

  function SentRequest(c: Client): Bytes
    requires TargetFits(c)
  {
    Request(c.target.host, c.target.port)
  }

  function ReplyLeft(pc: ClientPc): Bytes {
    if pc == ReadHead then Reply(0)
    else if pc == SkipAddress(4) then [0, 0, 0, 0, 0, 0]
    else if pc == SkipPort then [0, 0]
    else []
  }

  ghost predicate Idle(v: View) { v.cin == [] && v.sin == [] }

  ghost predicate WaitingFor(v: View, pc: ClientPc, toServer: Bytes) {
    v.cpc == pc && v.cin == [] && v.sin == toServer
  }

  ghost predicate Answered(v: View, pc: ClientPc, toClient: Bytes) {
    v.cpc == pc && v.cin == toClient && v.sin == []
  }

  ghost predicate GreetingPhase(u: Setup, v: View) {
    var g := Greeting(u.client);
    match v.spc
    case Peek => (v.cpc == Greet && Idle(v)) || WaitingFor(v, ReadMethod, g)
    case ReadGreeting => WaitingFor(v, ReadMethod, g)
    case ReadMethods(k) => WaitingFor(v, ReadMethod, g[2..]) && k == |g| - 2
    case _ => false
  }

  ghost predicate AuthPhase(u: Setup, v: View) {
    var c := u.client;
    && u.server.AuthOn() && c.user != []
    && match v.spc
       case ReadAuthHead =>
         || Answered(v, ReadMethod, [5, 2])
         || (v.cpc == SendAuth && Idle(v))
         || (CredentialsFit(c) && WaitingFor(v, ReadAuth, AuthRequest(c)))
         || (!CredentialsFit(c) && v.cpc == Failed && Idle(v))
       case ReadUser(k) => CredentialsFit(c) && k == |c.user| && WaitingFor(v, ReadAuth, c.user + ([Low(|c.pass|)] + c.pass))
       case ReadPassLength(user) => CredentialsFit(c) && user == c.user && WaitingFor(v, ReadAuth, [Low(|c.pass|)] + c.pass)
       case ReadPass(user, k) => CredentialsFit(c) && user == c.user && k == |c.pass| && WaitingFor(v, ReadAuth, c.pass)
       case _ => false
  }

  ghost predicate RequestPhase(u: Setup, v: View) {
    var c := u.client;
    && Authorized(u)
    && match v.spc
       case ReadRequest =>
         || (!u.server.AuthOn() && Answered(v, ReadMethod, [5, 0]))
         || (u.server.AuthOn() && Answered(v, ReadAuth, [1, 0]))
         || (v.cpc == SendRequest && Idle(v))
         || (TargetFits(c) && WaitingFor(v, ReadHead, SentRequest(c)))
         || (!TargetFits(c) && v.cpc == Failed && Idle(v))
       case _ => false
  }

  ghost predicate AddressPhase(u: Setup, v: View) {
    && Authorized(u) && TargetFits(u.client)
    && var host, port := u.client.target.host, u.client.target.port;
    && match v.spc
       case ReadNameLength => host.Domain? && WaitingFor(v, ReadHead, [Low(|host.name|)] + host.name + PortBytes(port))
       case ReadAddress(kind, k) =>
         && WaitingFor(v, ReadHead, (match host case IPv4(b) => b case IPv6(b) => b case Domain(b) => b) + PortBytes(port))
         && k == (match host case IPv4(b) => 4 case IPv6(b) => 16 case Domain(b) => |b|)
         && kind == (match host case IPv4(_) => 1 case IPv6(_) => 4 case Domain(_) => 3)
       case ReadPort(h) => h == host && WaitingFor(v, ReadHead, PortBytes(port))
       case Dial(h, p) => h == host && p == port % 65536 && WaitingFor(v, ReadHead, [])
       case _ => false
  }

  ghost predicate RelayPhase(u: Setup, v: View) {
    && v.spc.Relay? && Succeeds(u)
    && v.spc.host == u.client.target.host && v.spc.port == u.client.target.port % 65536
    && v.sin == []
    && v.relayed <= |u.banner|
    && (v.cpc == ReadHead || v.cpc == SkipAddress(4) || v.cpc == SkipPort || v.cpc == Connected)
    && v.cin == ReplyLeft(v.cpc) + u.banner[..v.relayed]
  }

  ghost predicate ClosedPhase(u: Setup, v: View) {
    var c := u.client;
    && v.spc.Closed? && v.sin == [] && !Succeeds(u)
    && (|| v.cpc == Failed
        || (v.cpc == ReadMethod && v.cin == [5, 255])
        || (v.cpc == ReadAuth && v.cin == [1, 1])
        || (v.cpc == ReadHead && v.cin == Reply(5)))
  }

  /** What has been dialled: nothing before the dial state is left, then the requested address once. */
  ghost predicate DialledInv(u: Setup, v: View) {
    if v.spc.Relay? then v.dialled == [(v.spc.host, v.spc.port)]
    else if v.spc.Closed? then
      v.dialled == [] || (Authorized(u) && TargetFits(u.client) && v.dialled == [(u.client.target.host, u.client.target.port % 65536)])
    else v.dialled == []
  }

  ghost predicate Inv(u: Setup, v: View) {
    && AddressSized(v.spc)
    && DialledInv(u, v)
    && (v.spc.Relay? || v.relayed == 0)
    && (|| GreetingPhase(u, v) || AuthPhase(u, v) || RequestPhase(u, v) || AddressPhase(u, v)
        || RelayPhase(u, v) || ClosedPhase(u, v))
  }

  lemma StartInv(u: Setup)
    ensures Inv(u, ViewOf(Start()))
  {
  }

  // ---------- moves on views ----------

  /** A completed read of the client, followed by what it does next. */
  function ClientMoves(u: Setup, v: View): View
    requires !ClientDone(v.cpc) && |v.cin| >= ClientNeed(v.cpc)
  {
    var step := ClientAct(u.client, v.cpc, v.cin[..ClientNeed(v.cpc)]);
    v.(cpc := step.pc, cin := v.cin[ClientNeed(v.cpc)..], sin := v.sin + step.out)
  }

  function ServerMoves(u: Setup, v: View): View
    requires AddressSized(v.spc) && ServerReading(v.spc) && |v.sin| >= ServerNeed(v.spc)
  {
    var step := ServerAct(u.server, u.dial, v.spc, v.sin[..ServerNeed(v.spc)]);
    v.(spc := step.pc, sin := v.sin[ServerNeed(v.spc)..], cin := v.cin + step.out,
       dialled := if v.spc.Dial? then v.dialled + [(v.spc.host, v.spc.port)] else v.dialled)
  }

  /** Carrying bytes from one place to the next does not show in the view. */
  lemma TransportIsInvisible(u: Setup, n: Net, m: Move)
    requires NetOk(n) && Enabled(u, n, m) && (m.ClientReceive? || m.Fill? || m.ServerReceive?)
    ensures ViewOf(Apply(u, n, m)) == ViewOf(n)
  {
    match m
    case ClientReceive(k) => Carry(n.cgot, n.s2c, k);
    case Fill(k) => Carry(n.br, n.c2s, k);
    case ServerReceive(k) => Carry(n.sgot, n.br, k); Regroup(n.sgot, n.br[..k], n.br[k..], n.c2s);
  }

  lemma Carry(a: Bytes, b: Bytes, k: nat)
    requires k <= |b|
    ensures (a + b[..k]) + b[k..] == a + b
  {
    assert b == b[..k] + b[k..];
  }

  lemma Regroup(a: Bytes, b: Bytes, c: Bytes, d: Bytes)
    ensures (a + b) + (c + d) == a + ((b + c) + d)
  {
  }

  lemma ViewOfClientStep(u: Setup, n: Net)
    requires NetOk(n) && Enabled(u, n, ClientStep)
    ensures |ViewOf(n).cin| >= ClientNeed(n.cpc) && ViewOf(Apply(u, n, ClientStep)) == ClientMoves(u, ViewOf(n))
  {
    var step := ClientAct(u.client, n.cpc, n.cgot);
    TakeDrop(n.cgot, n.s2c);
    Regroup(n.sgot, n.br, n.c2s, step.out);
    assert n.sgot + (n.br + (n.c2s + step.out)) == (n.sgot + (n.br + n.c2s)) + step.out;
    assert [] + n.s2c == n.s2c;
  }

  lemma ViewOfServerStep(u: Setup, n: Net)
    requires NetOk(n) && Enabled(u, n, ServerStep)
    ensures |ViewOf(n).sin| >= ServerNeed(n.spc) && ViewOf(Apply(u, n, ServerStep)) == ServerMoves(u, ViewOf(n))
  {
    var step := ServerAct(u.server, u.dial, n.spc, n.sgot);
    TakeDrop(n.sgot, n.br + n.c2s);
    assert n.cgot + (n.s2c + step.out) == (n.cgot + n.s2c) + step.out;
    assert [] + (n.br + n.c2s) == n.br + n.c2s;
  }

  // ---------- the client moves ----------

  lemma ClientMovesInGreeting(u: Setup, v: View)
    requires GreetingPhase(u, v) && !ClientDone(v.cpc) && |v.cin| >= ClientNeed(v.cpc)
    ensures GreetingPhase(u, ClientMoves(u, v))
  {
  }

  lemma ClientMovesInAuth(u: Setup, v: View)
    requires AuthPhase(u, v) && !ClientDone(v.cpc) && |v.cin| >= ClientNeed(v.cpc)
    ensures AuthPhase(u, ClientMoves(u, v))
  {
  }

  lemma ClientMovesInRequest(u: Setup, v: View)
    requires RequestPhase(u, v) && !ClientDone(v.cpc) && |v.cin| >= ClientNeed(v.cpc)
    ensures RequestPhase(u, ClientMoves(u, v))
  {
    if v.cpc == ReadMethod {
      assert v.cin[..2] == [5, 0] && v.cin[2..] == [];
    } else if v.cpc == ReadAuth {
      assert v.cin[..2] == [1, 0] && v.cin[2..] == [];
    } else {
      assert v.cpc == SendRequest && v.cin[..0] == [] && v.cin[0..] == [];
    }
  }

  lemma ClientWaitsForAddress(u: Setup, v: View)
    requires AddressPhase(u, v)
    ensures |v.cin| < ClientNeed(v.cpc)
  {
  }

  lemma ClientMovesInRelay(u: Setup, v: View)
    requires RelayPhase(u, v) && !ClientDone(v.cpc) && |v.cin| >= ClientNeed(v.cpc)
    ensures RelayPhase(u, ClientMoves(u, v))
  {
    var left, sent, k := ReplyLeft(v.cpc), u.banner[..v.relayed], ClientNeed(v.cpc);
    assert v.cin[..k] == left[..k] && v.cin[k..] == left[k..] + sent;
  }

  lemma ClientMovesInClosed(u: Setup, v: View)
    requires ClosedPhase(u, v) && !ClientDone(v.cpc) && |v.cin| >= ClientNeed(v.cpc)
    ensures ClosedPhase(u, ClientMoves(u, v))
  {
    assert v.cin[..ClientNeed(v.cpc)][1] == v.cin[1];
  }

  lemma ClientMovesKeepInv(u: Setup, v: View)
    requires Inv(u, v) && !ClientDone(v.cpc) && |v.cin| >= ClientNeed(v.cpc)
    ensures Inv(u, ClientMoves(u, v))
  {
    if GreetingPhase(u, v) { ClientMovesInGreeting(u, v); }
    else if AuthPhase(u, v) { ClientMovesInAuth(u, v); }
    else if RequestPhase(u, v) { ClientMovesInRequest(u, v); }
    else if AddressPhase(u, v) { ClientWaitsForAddress(u, v); }
    else if RelayPhase(u, v) { ClientMovesInRelay(u, v); }
    else { ClientMovesInClosed(u, v); }
  }

  // ---------- the server moves ----------

  lemma TakeDrop(a: Bytes, b: Bytes)
    ensures (a + b)[..|a|] == a && (a + b)[|a|..] == b
  {
  }

  /** Once the server has all it needs of a message, what it takes is a prefix of the rest of that message. */
  lemma ServerMovesInGreeting(u: Setup, v: View)
    requires GreetingPhase(u, v) && AddressSized(v.spc) && ServerReading(v.spc) && |v.sin| >= ServerNeed(v.spc)
    ensures var r := ServerMoves(u, v);
            GreetingPhase(u, r) || AuthPhase(u, r) || RequestPhase(u, r) || (ClosedPhase(u, r) && r.dialled == v.dialled)
  {
    var g := Greeting(u.client);
    if v.spc.ReadMethods? {
      assert v.sin[..v.spc.n] == v.sin && v.sin[v.spc.n..] == [];
      assert g[2..] == if u.client.user == [] then [0] else [0, 2];
      assert 2 in v.sin <==> u.client.user != [] by { if u.client.user != [] { assert v.sin[1] == 2; } }
    }
  }

  lemma ServerReadsAuthHead(u: Setup, v: View)
    requires AuthPhase(u, v) && v.spc.ReadAuthHead? && |v.sin| >= 2
    ensures AuthPhase(u, ServerMoves(u, v)) && ServerMoves(u, v).spc.ReadUser?
  {
    var c := u.client;
    var tail := c.user + ([Low(|c.pass|)] + c.pass);
    assert AuthRequest(c) == [1, Low(|c.user|)] + tail;
    TakeDrop([1, Low(|c.user|)], tail);
  }

  lemma ServerReadsUser(u: Setup, v: View)
    requires AuthPhase(u, v) && v.spc.ReadUser?
    ensures |v.sin| >= v.spc.n && AuthPhase(u, ServerMoves(u, v))
  {
    TakeDrop(u.client.user, [Low(|u.client.pass|)] + u.client.pass);
  }

  lemma ServerReadsPassLength(u: Setup, v: View)
    requires AuthPhase(u, v) && v.spc.ReadPassLength?
    ensures |v.sin| >= 1 && AuthPhase(u, ServerMoves(u, v))
  {
    TakeDrop([Low(|u.client.pass|)], u.client.pass);
  }

  lemma ServerReadsPass(u: Setup, v: View)
    requires AuthPhase(u, v) && v.spc.ReadPass?
    ensures |v.sin| >= v.spc.m
    ensures var r := ServerMoves(u, v); RequestPhase(u, r) || (ClosedPhase(u, r) && r.dialled == v.dialled)
  {
    var pass := u.client.pass;
    assert pass[..|pass|] == pass && pass[|pass|..] == [];
  }

  lemma ServerMovesInAuth(u: Setup, v: View)
    requires AuthPhase(u, v) && AddressSized(v.spc) && ServerReading(v.spc) && |v.sin| >= ServerNeed(v.spc)
    ensures var r := ServerMoves(u, v);
            AuthPhase(u, r) || RequestPhase(u, r) || (ClosedPhase(u, r) && r.dialled == v.dialled)
  {
    match v.spc
    case ReadAuthHead => ServerReadsAuthHead(u, v);
    case ReadUser(_) => ServerReadsUser(u, v);
    case ReadPassLength(_) => ServerReadsPassLength(u, v);
    case ReadPass(_, _) => ServerReadsPass(u, v);
  }

  function KindOf(a: Address): byte {
    match a case IPv4(_) => 1 case IPv6(_) => 4 case Domain(_) => 3
  }

  /** The request after its first four bytes. */
  function RequestTail(a: Address, port: int): Bytes {
    match a
    case IPv4(b) => b + PortBytes(port)
    case IPv6(b) => b + PortBytes(port)
    case Domain(b) => [Low(|b|)] + b + PortBytes(port)
  }

  lemma RequestSplits(a: Address, port: int)
    ensures Request(a, port)[..4] == [5, 1, 0, KindOf(a)]
    ensures Request(a, port)[4..] == RequestTail(a, port)
  {
    assert Request(a, port) == [5, 1, 0, KindOf(a)] + RequestTail(a, port);
  }

  lemma ServerMovesInRequest(u: Setup, v: View)
    requires RequestPhase(u, v) && AddressSized(v.spc) && ServerReading(v.spc) && |v.sin| >= ServerNeed(v.spc)
    ensures AddressPhase(u, ServerMoves(u, v))
  {
    RequestSplits(u.client.target.host, u.client.target.port);
  }

  function AddressData(a: Address): Bytes {
    match a case IPv4(b) => b case IPv6(b) => b case Domain(b) => b
  }

  lemma ServerReadsName(u: Setup, v: View)
    requires AddressPhase(u, v) && (v.spc.ReadNameLength? || v.spc.ReadAddress?) && AddressSized(v.spc)
    ensures |v.sin| >= ServerNeed(v.spc) && AddressPhase(u, ServerMoves(u, v))
  {
    var host, port := u.client.target.host, PortBytes(u.client.target.port);
    if v.spc.ReadNameLength? {
      assert [Low(|host.name|)] + host.name + port == [Low(|host.name|)] + (host.name + port);
      TakeDrop([Low(|host.name|)], host.name + port);
    } else {
      TakeDrop(AddressData(host), port);
    }
  }

  lemma ServerReadsPort(u: Setup, v: View)
    requires AddressPhase(u, v) && v.spc.ReadPort?
    ensures |v.sin| >= 2 && AddressPhase(u, ServerMoves(u, v))
  {
    PortRoundTrip(u.client.target.port);
    assert v.sin[..2] == v.sin && v.sin[2..] == [];
  }

  lemma ServerDials(u: Setup, v: View)
    requires AddressPhase(u, v) && v.spc.Dial? && v.relayed == 0
    ensures var r := ServerMoves(u, v); RelayPhase(u, r) || ClosedPhase(u, r)
  {
    assert Reply(0) + u.banner[..0] == Reply(0);
  }

  lemma ServerMovesInAddress(u: Setup, v: View)
    requires AddressPhase(u, v) && AddressSized(v.spc) && ServerReading(v.spc) && |v.sin| >= ServerNeed(v.spc)
    requires v.relayed == 0
    ensures var r := ServerMoves(u, v); AddressPhase(u, r) || RelayPhase(u, r) || ClosedPhase(u, r)
  {
    if v.spc.Dial? { ServerDials(u, v); }
    else if v.spc.ReadPort? { ServerReadsPort(u, v); }
    else { ServerReadsName(u, v); }
  }

  /** The two bytes of the port read back as the port modulo 65536. */
  lemma PortRoundTrip(port: int)
    ensures PortBytes(port)[0] as nat * 256 + PortBytes(port)[1] as nat == port % 65536
  {
  }

  lemma ServerMovesKeepInv(u: Setup, v: View)
    requires Inv(u, v) && ServerReading(v.spc) && |v.sin| >= ServerNeed(v.spc)
    ensures Inv(u, ServerMoves(u, v))
  {
    if GreetingPhase(u, v) { ServerMovesInGreeting(u, v); }
    else if AuthPhase(u, v) { ServerMovesInAuth(u, v); }
    else if RequestPhase(u, v) { ServerMovesInRequest(u, v); }
    else if AddressPhase(u, v) { ServerMovesInAddress(u, v); }
    assert v.dialled == [];
  }

  // ---------- all moves ----------

  /** An end of stream is only met by the server of a client that gave up, between two messages. */
  lemma EndsKeepInv(u: Setup, n: Net, m: Move)
    requires NetOk(n) && Inv(u, ViewOf(n)) && Enabled(u, n, m) && (m.ClientEof? || m.ServerEnds?)
    ensures m.ServerEnds? && Inv(u, ViewOf(Apply(u, n, m)))
  {
    var v := ViewOf(n);
    if m.ServerEnds? {
      assert v.sin == n.sgot;
      assert AuthPhase(u, v) || RequestPhase(u, v);
      assert n.sgot == [];
      assert n.s2c + [] == n.s2c;
    }
  }

  lemma MoveKeepsInv(u: Setup, n: Net, m: Move)
    requires NetOk(n) && Inv(u, ViewOf(n)) && Enabled(u, n, m)
    ensures Inv(u, ViewOf(Apply(u, n, m)))
  {
    var v := ViewOf(n);
    match m
    case ClientStep => ViewOfClientStep(u, n); ClientMovesKeepInv(u, v);
    case ServerStep => ViewOfServerStep(u, n); ServerMovesKeepInv(u, v);
    case ClientEof => EndsKeepInv(u, n, m);
    case ServerEnds => EndsKeepInv(u, n, m);
    case ServerPeek => PeekKeepsInv(u, n);
    case RelayWrite(k) => RelayKeepsInv(u, n, k);
    case _ => TransportIsInvisible(u, n, m);
  }

  lemma PeekKeepsInv(u: Setup, n: Net)
    requires NetOk(n) && Inv(u, ViewOf(n)) && Enabled(u, n, ServerPeek)
    ensures Inv(u, ViewOf(Apply(u, n, ServerPeek)))
  {
    var v := ViewOf(n);
    assert n.sgot == [] && v.sin[0] == n.br[0];
    assert GreetingPhase(u, v) && v.sin == Greeting(u.client);
  }

  lemma RelayKeepsInv(u: Setup, n: Net, k: nat)
    requires NetOk(n) && Inv(u, ViewOf(n)) && Enabled(u, n, RelayWrite(k))
    ensures Inv(u, ViewOf(Apply(u, n, RelayWrite(k))))
  {
    var v, r := ViewOf(n), Apply(u, n, RelayWrite(k));
    var more := u.banner[n.relayed..r.relayed];
    ConnectedMeansRelaying(u, v);
    assert u.banner[..r.relayed] == u.banner[..n.relayed] + more;
    assert n.cgot + (n.s2c + more) == (n.cgot + n.s2c) + more;
    assert (ReplyLeft(v.cpc) + u.banner[..n.relayed]) + more == ReplyLeft(v.cpc) + u.banner[..r.relayed];
    assert RelayPhase(u, ViewOf(r));
  }

  lemma StepKeepsInv(u: Setup, n: Net, r: Net)
    requires Inv(u, ViewOf(n)) && LeadsTo(u, n, r)
    ensures NetOk(r) && Inv(u, ViewOf(r))
  {
    var m :| Enabled(u, n, m) && r == Apply(u, n, m);
    MoveKeepsInv(u, n, m);
  }

  lemma {:induction false} RunKeepsInv(u: Setup, run: seq<Net>, i: nat)
    requires IsRun(u, run) && i < |run|
    ensures NetOk(run[i]) && Inv(u, ViewOf(run[i]))
  {
    if i == 0 {
      StartInv(u);
    } else {
      RunKeepsInv(u, run, i - 1);
      StepKeepsInv(u, run[i - 1], run[i]);
    }
  }

  // ---------- the theorems ----------

  lemma ConnectedMeansRelaying(u: Setup, v: View)
    requires Inv(u, v)
    ensures v.cpc.Connected? ==> RelayPhase(u, v)
    ensures v.spc.Relay? <==> RelayPhase(u, v)
    ensures v.spc.Closed? <==> ClosedPhase(u, v)
  {
  }

  lemma DialledIsRequested(u: Setup, v: View)
    requires Inv(u, v) && v.dialled != []
    ensures Authorized(u) && TargetFits(u.client)
    ensures v.dialled == [(u.client.target.host, u.client.target.port % 65536)]
  {
    ConnectedMeansRelaying(u, v);
  }

  /**
   Agreement. When a run is over, the client believes it is connected exactly when negotiation,
   credentials, length limits and the dial all succeed; then the server relays to the requested
   address and to the port as its two bytes carry it, it dialled once, and no byte is out of
   place: nothing is left on the way to the server or in its buffer, and what the client has not
   read is exactly what was relayed.
   */
  lemma {:induction false} Agreement(u: Setup, run: seq<Net>)
    requires IsRun(u, run) && Final(u, run[|run| - 1])
    ensures var n := run[|run| - 1];
            && (n.cpc.Connected? <==> Succeeds(u))
            && (n.cpc.Connected? ==>
                  && n.spc == Relay(u.client.target.host, u.client.target.port % 65536)
                  && n.dialled == [(u.client.target.host, u.client.target.port % 65536)]
                  && n.c2s == [] && n.br == [] && n.sgot == [] && n.cgot == []
                  && n.s2c == u.banner)
            && (n.cpc.Failed? ==> n.spc.Closed?)
  {
    RunKeepsInv(u, run, |run| - 1);
    FinalConnected(u, run[|run| - 1]);
    FinalFailed(u, run[|run| - 1]);
  }

  lemma FinalConnected(u: Setup, n: Net)
    requires NetOk(n) && Inv(u, ViewOf(n)) && Final(u, n)
    ensures n.cpc.Connected? ==>
      && Succeeds(u)
      && n.spc == Relay(u.client.target.host, u.client.target.port % 65536)
      && n.dialled == [(u.client.target.host, u.client.target.port % 65536)]
      && n.c2s == [] && n.br == [] && n.sgot == [] && n.cgot == []
      && n.s2c == u.banner
  {
    var v := ViewOf(n);
    ConnectedMeansRelaying(u, v);
    if n.cpc.Connected? {
      assert u.banner[..|u.banner|] == u.banner;
      assert n.cgot == [] && [] + n.s2c == n.s2c;
      assert ReplyLeft(n.cpc) == [] && [] + u.banner == u.banner;
    }
  }

  lemma FinalFailed(u: Setup, n: Net)
    requires NetOk(n) && Inv(u, ViewOf(n)) && Final(u, n)
    ensures n.cpc.Failed? ==> n.spc.Closed? && !Succeeds(u)
  {
    ConnectedMeansRelaying(u, ViewOf(n));
  }

  /** At every moment of every run: nothing is dialled without authorization, and only the requested address. */
  lemma {:induction false} OnlyTheRequestedAddressIsDialled(u: Setup, run: seq<Net>, i: nat)
    requires IsRun(u, run) && i < |run|
    ensures run[i].dialled != [] ==>
      Authorized(u) && TargetFits(u.client) &&
      run[i].dialled == [(u.client.target.host, u.client.target.port % 65536)]
    ensures run[i].spc.Relay? ==> run[i].br == [] && run[i].c2s == [] && run[i].sgot == []
  {
    RunKeepsInv(u, run, i);
    ConnectedMeansRelaying(u, ViewOf(run[i]));
    if run[i].dialled != [] { DialledIsRequested(u, ViewOf(run[i])); }
  }

  /** No run is stuck: as long as the handshake is not over, some move is possible. */
  lemma {:induction false} NoDeadlock(u: Setup, run: seq<Net>) returns (m: Move)
    requires IsRun(u, run) && !Final(u, run[|run| - 1])
    ensures Enabled(u, run[|run| - 1], m)
  {
    RunKeepsInv(u, run, |run| - 1);
    m := SomeMove(u, run[|run| - 1]);
  }

  lemma SomeMove(u: Setup, n: Net) returns (m: Move)
    requires NetOk(n) && Inv(u, ViewOf(n)) && !Final(u, n)
    ensures Enabled(u, n, m)
  {
    var v := ViewOf(n);
    if !ClientDone(n.cpc) && |n.cgot| == ClientNeed(n.cpc) {
      m := ClientStep;
    } else if !ClientDone(n.cpc) && n.s2c != [] {
      m := ClientReceive(1);
    } else if n.spc.Relay? {
      assert RelayPhase(u, v);
      m := RelayWrite(1);
    } else if n.c2s != [] && !ServerDone(n.spc) {
      m := Fill(1);
    } else if n.spc.Peek? {
      m := ServerPeek;
    } else if ServerReading(n.spc) && |n.sgot| == ServerNeed(n.spc) {
      m := ServerStep;
    } else if ServerReading(n.spc) && n.br != [] {
      m := ServerReceive(1);
    } else {
      m := ServerEnds;
    }
  }

  // ---------- every run ends ----------

  lemma ClientWritesLittle(c: Client, pc: ClientPc, data: Bytes)
    requires !ClientDone(pc) && |data| == ClientNeed(pc)
    ensures |ClientAct(c, pc, data).out| <= 600 && ClientRank(ClientAct(c, pc, data).pc) < ClientRank(pc)
  {
  }

  lemma ServerWritesLittle(s: Server, dial: Dialer, pc: ServerPc, data: Bytes)
    requires !ServerDone(pc) && !pc.Peek? && |data| == ServerNeed(pc) && AddressSized(pc)
    ensures |ServerAct(s, dial, pc, data).out| <= 600 && ServerRank(ServerAct(s, dial, pc, data).pc) < ServerRank(pc)
  {
  }

  /**
   Steps to go, and bytes with the moves each still has before it. No end writes more than 600
   bytes at once, so a step is worth more than all it can write.
   */
  function Measure(u: Setup, n: Net): int {
    1201 * (ClientRank(n.cpc) + ServerRank(n.spc)) + 2 * (|u.banner| - n.relayed) + 2 * |n.c2s| + |n.br| + |n.s2c|
  }

  lemma RanksDecideMeasure(u: Setup, n: Net, r: Net)
    requires ClientRank(r.cpc) + ServerRank(r.spc) < ClientRank(n.cpc) + ServerRank(n.spc) && r.relayed == n.relayed
    requires |r.c2s| <= |n.c2s| + 600 && |r.s2c| <= |n.s2c| + 1200 && |r.br| == |n.br|
    requires |r.c2s| == |n.c2s| || |r.s2c| == |n.s2c|
    ensures Measure(u, r) < Measure(u, n)
  {
  }

  lemma ClientStepDecreases(u: Setup, n: Net)
    requires NetOk(n) && Enabled(u, n, ClientStep)
    ensures Measure(u, Apply(u, n, ClientStep)) < Measure(u, n)
  {
    ClientWritesLittle(u.client, n.cpc, n.cgot);
    RanksDecideMeasure(u, n, Apply(u, n, ClientStep));
  }

  lemma ServerStepDecreases(u: Setup, n: Net)
    requires NetOk(n) && Enabled(u, n, ServerStep)
    ensures Measure(u, Apply(u, n, ServerStep)) < Measure(u, n)
  {
    ServerWritesLittle(u.server, u.dial, n.spc, n.sgot);
    RanksDecideMeasure(u, n, Apply(u, n, ServerStep));
  }

  lemma EndsDecrease(u: Setup, n: Net, m: Move)
    requires NetOk(n) && Enabled(u, n, m) && (m.ClientEof? || m.ServerEnds? || m.ServerPeek?)
    ensures Measure(u, Apply(u, n, m)) < Measure(u, n)
  {
    RanksDecideMeasure(u, n, Apply(u, n, m));
  }

  lemma MovesDecreaseMeasure(u: Setup, n: Net, m: Move)
    requires NetOk(n) && Enabled(u, n, m)
    ensures Measure(u, Apply(u, n, m)) < Measure(u, n)
  {
    match m
    case ClientStep => ClientStepDecreases(u, n);
    case ServerStep => ServerStepDecreases(u, n);
    case ClientReceive(k) =>
    case Fill(k) =>
    case ServerReceive(k) =>
    case RelayWrite(k) =>
    case _ => EndsDecrease(u, n, m);
  }

  /** A move brings the end nearer, and relays no more of the banner than there is. */
  lemma StepDecreases(u: Setup, n: Net, r: Net)
    requires LeadsTo(u, n, r) && n.relayed <= |u.banner|
    ensures Measure(u, r) < Measure(u, n) && r.relayed <= |u.banner|
  {
    var m :| Enabled(u, n, m) && r == Apply(u, n, m);
    MovesDecreaseMeasure(u, n, m);
  }

  lemma {:induction false} RunDecreases(u: Setup, run: seq<Net>, i: nat)
    requires IsRun(u, run) && i < |run|
    ensures run[i].relayed <= |u.banner|
    ensures 0 <= Measure(u, run[i]) <= 21 * 1201 + 2 * |u.banner| - i
  {
    if i == 0 {
      assert ClientRank(Start().cpc) + ServerRank(Start().spc) == 21;
    } else {
      RunDecreases(u, run, i - 1);
      StepDecreases(u, run[i - 1], run[i]);
    }
  }

  /** Every run is finite, of a length the banner alone decides; by NoDeadlock it can only end in a final state. */
  lemma {:induction false} RunsEnd(u: Setup, run: seq<Net>)
    requires IsRun(u, run)
    ensures |run| <= 21 * 1201 + 2 * |u.banner| + 1
  {
    RunDecreases(u, run, |run| - 1);
  }

  ghost predicate PicksEnabled(u: Setup, pick: (nat, Net) -> Move, i: nat, n: Net) { Enabled(u, n, pick(i, n)) }

  /** The two ends under any scheduler: it picks any possible move each time, and the outcome is the agreed one. */
  method Converse(u: Setup, pick: (nat, Net) -> Move) returns (n: Net, ghost run: seq<Net>)
    requires forall i, r :: CanMove(u, r) ==> PicksEnabled(u, pick, i, r)
    ensures IsRun(u, run) && run[|run| - 1] == n && Final(u, n)
    ensures n.cpc.Connected? <==> Succeeds(u)
    ensures n.cpc.Connected? ==>
      n.dialled == [(u.client.target.host, u.client.target.port % 65536)] && n.s2c == u.banner
  {
    n, run := Start(), [Start()];
    var steps := 0;
    while !Final(u, n)
      invariant IsRun(u, run) && run[|run| - 1] == n && NetOk(n) && 0 <= Measure(u, n)
      decreases Measure(u, n)
    {
      ghost var possible := NoDeadlock(u, run);
      assert PicksEnabled(u, pick, steps, n);
      var m := pick(steps, n);
      RunGrows(u, run, m);
      n := Apply(u, n, m);
      run := run + [n];
      steps := steps + 1;
    }
    Agreement(u, run);
  }

  lemma RunGrows(u: Setup, run: seq<Net>, m: Move)
    requires IsRun(u, run) && NetOk(run[|run| - 1]) && Enabled(u, run[|run| - 1], m)
    ensures var n := run[|run| - 1]; var r := Apply(u, n, m);
            IsRun(u, run + [r]) && 0 <= Measure(u, r) < Measure(u, n)
  {
    var n := run[|run| - 1];
    var longer := run + [Apply(u, n, m)];
    assert LeadsTo(u, n, Apply(u, n, m));
    assert forall i, j :: 0 <= i && j == i + 1 < |run| ==> LeadsTo(u, run[i], run[j]);
    assert forall i :: 0 <= i < |run| ==> longer[i] == run[i];
    RunDecreases(u, longer, |run|);
    MovesDecreaseMeasure(u, n, m);
  }
}
