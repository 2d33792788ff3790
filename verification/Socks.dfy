/**
 The two ends of the SOCKS5 handshake (RFC 1928 sections 3 to 6, RFC 1929 section 2), each as a
 sequence of reads of a known length and the action taken when a read completes. The same
 step functions specify the straight-line code of both ends and drive their composition.
 */
module Socks {

  newtype byte = x: int | 0 <= x < 256

  type Bytes = seq<byte>

  datatype Addr = IPv4(octets: Bytes) | IPv6(octets: Bytes) | Domain(name: Bytes)

  predicate ValidAddr(a: Addr) {
    match a
    case IPv4(octets) => |octets| == 4
    case IPv6(octets) => |octets| == 16
    case Domain(_) => true
  }

  type Address = a: Addr | ValidAddr(a) witness Domain([])

  /** The target of the client: net.SplitHostPort, strconv.Atoi and net.ParseIP already applied. */
  datatype Target = Unusable | Target(host: Address, port: int)

  datatype Client = Client(user: Bytes, pass: Bytes, target: Target)

  datatype Server = Server(user: Bytes, pass: Bytes) {
    predicate AuthOn() { user != [] || pass != [] }
  }

  /** Whether the server's dial of an address succeeds. */
  type Dialer = (Address, nat) -> bool

  // ---------- messages ----------

  function Low(n: int): byte { (n % 256) as byte }

  function Greeting(c: Client): Bytes {
    if c.user == [] then [5, 1, 0] else [5, 2, 0, 2]
  }

  function AuthRequest(c: Client): Bytes {
    [1, Low(|c.user|)] + c.user + [Low(|c.pass|)] + c.pass
  }

  function AddressBytes(a: Address): Bytes {
    match a
    case IPv4(octets) => [1] + octets
    case IPv6(octets) => [4] + octets
    case Domain(name) => [3, Low(|name|)] + name
  }

  /** byte(port >> 8), byte(port): the port modulo 65536. */
  function PortBytes(port: int): Bytes { [Low(port / 256), Low(port)] }

  function Request(a: Address, port: int): Bytes { [5, 1, 0] + AddressBytes(a) + PortBytes(port) }

  function Reply(code: byte): Bytes { [5, code, 0, 1, 0, 0, 0, 0, 0, 0] }

  // ---------- client ----------

  datatype ClientPc =
    | Greet | ReadMethod | SendAuth | ReadAuth | SendRequest
    | ReadHead | ReadDomainLength | SkipAddress(n: nat) | SkipPort
    | Connected | Failed

  function ClientNeed(pc: ClientPc): nat {
    match pc
    case ReadMethod => 2
    case ReadAuth => 2
    case ReadHead => 4
    case ReadDomainLength => 1
    case SkipAddress(n) => n
    case SkipPort => 2
    case _ => 0
  }

  predicate ClientDone(pc: ClientPc) { pc.Connected? || pc.Failed? }

  datatype Sent<Pc> = Sent(pc: Pc, out: Bytes)

  /** What the client does once its current read is complete. */
  function ClientAct(c: Client, pc: ClientPc, data: Bytes): Sent<ClientPc>
    requires !ClientDone(pc) && |data| == ClientNeed(pc)
  {
    match pc
    case Greet => Sent(ReadMethod, Greeting(c))
    case ReadMethod =>
      if data[0] != 5 then Sent(Failed, [])
      else if data[1] == 0 then Sent(SendRequest, [])
      else if data[1] == 2 then Sent(if c.user == [] then Failed else SendAuth, [])
      else Sent(Failed, [])
    case SendAuth =>
      if |c.user| > 255 || |c.pass| > 255 then Sent(Failed, []) else Sent(ReadAuth, AuthRequest(c))
    case ReadAuth => Sent(if data[1] != 0 then Failed else SendRequest, [])
    case SendRequest =>
      if c.target.Unusable? then Sent(Failed, [])
      else if c.target.host.Domain? && |c.target.host.name| > 255 then Sent(Failed, [])
      else Sent(ReadHead, Request(c.target.host, c.target.port))
    case ReadHead =>
      if data[1] != 0 then Sent(Failed, [])
      else if data[3] == 1 then Sent(SkipAddress(4), [])
      else if data[3] == 4 then Sent(SkipAddress(16), [])
      else if data[3] == 3 then Sent(ReadDomainLength, [])
      else Sent(Failed, [])
    case ReadDomainLength => Sent(SkipAddress(data[0] as nat), [])
    case SkipAddress(_) => Sent(SkipPort, [])
    case SkipPort => Sent(Connected, [])
  }

  // ---------- server ----------

  datatype ServerPc =
    | Peek | ReadGreeting | ReadMethods(n: nat)
    | ReadAuthHead | ReadUser(n: nat) | ReadPassLength(user: Bytes) | ReadPass(user: Bytes, m: nat)
    | ReadRequest | ReadNameLength | ReadAddress(kind: byte, n: nat) | ReadPort(host: Address)
    | Dial(host: Address, port: nat)
    | Relay(host: Address, port: nat)
    | Http        // the first byte was not 0x05: handed to the HTTP proxy
    | Closed

  /** Peek looks at one byte without consuming it; the other states consume what they need. */
  function ServerNeed(pc: ServerPc): nat {
    match pc
    case ReadGreeting => 2
    case ReadMethods(n) => n
    case ReadAuthHead => 2
    case ReadUser(n) => n
    case ReadPassLength(_) => 1
    case ReadPass(_, m) => m
    case ReadRequest => 4
    case ReadNameLength => 1
    case ReadAddress(_, n) => n
    case ReadPort(_) => 2
    case _ => 0
  }

  predicate ServerDone(pc: ServerPc) { pc.Relay? || pc.Http? || pc.Closed? }

  predicate AddressSized(pc: ServerPc) {
    pc.ReadAddress? ==> (pc.kind == 1 && pc.n == 4) || pc.kind == 3 || (pc.kind == 4 && pc.n == 16)
  }

  function ServerAct(s: Server, dial: Dialer, pc: ServerPc, data: Bytes): (r: Sent<ServerPc>)
    requires !ServerDone(pc) && !pc.Peek? && |data| == ServerNeed(pc) && AddressSized(pc)
    ensures AddressSized(r.pc)
  {
    match pc
    case ReadGreeting => Sent(if data[0] != 5 then Closed else ReadMethods(data[1] as nat), [])
    case ReadMethods(_) =>
      if s.AuthOn() then
        if 2 in data then Sent(ReadAuthHead, [5, 2]) else Sent(Closed, [5, 255])
      else Sent(ReadRequest, [5, 0])
    case ReadAuthHead => if data[0] != 1 then Sent(Closed, [1, 1]) else Sent(ReadUser(data[1] as nat), [])
    case ReadUser(_) => Sent(ReadPassLength(data), [])
    case ReadPassLength(user) => Sent(ReadPass(user, data[0] as nat), [])
    case ReadPass(user, _) =>
      if user == s.user && data == s.pass then Sent(ReadRequest, [1, 0]) else Sent(Closed, [1, 1])
    case ReadRequest =>
      if data[0] != 5 || data[1] != 1 then Sent(Closed, Reply(7))
      else if data[3] == 1 then Sent(ReadAddress(1, 4), [])
      else if data[3] == 3 then Sent(ReadNameLength, [])
      else if data[3] == 4 then Sent(ReadAddress(4, 16), [])
      else Sent(Closed, Reply(8))
    case ReadNameLength => Sent(ReadAddress(3, data[0] as nat), [])
    case ReadAddress(kind, _) =>
      Sent(ReadPort(if kind == 1 then IPv4(data) else if kind == 4 then IPv6(data) else Domain(data)), [])
    case ReadPort(host) => Sent(Dial(host, data[0] as nat * 256 + data[1] as nat), [])
    case Dial(host, port) => if dial(host, port) then Sent(Relay(host, port), Reply(0)) else Sent(Closed, Reply(5))
  }

  /** What the server writes before it closes when the stream ends inside a read. */
  function ServerEof(pc: ServerPc): Bytes {
    if pc.ReadNameLength? || pc.ReadAddress? then Reply(8) else []
  }

  // ---------- running one end over a whole input ----------

  function ClientRank(pc: ClientPc): nat {
    match pc
    case Greet => 9 case ReadMethod => 8 case SendAuth => 7 case ReadAuth => 6 case SendRequest => 5
    case ReadHead => 4 case ReadDomainLength => 3 case SkipAddress(_) => 2 case SkipPort => 1
    case _ => 0
  }

  function ServerRank(pc: ServerPc): nat {
    match pc
    case Peek => 12 case ReadGreeting => 11 case ReadMethods(_) => 10
    case ReadAuthHead => 9 case ReadUser(_) => 8 case ReadPassLength(_) => 7 case ReadPass(_, _) => 6
    case ReadRequest => 5 case ReadNameLength => 4 case ReadAddress(_, _) => 3 case ReadPort(_) => 2 case Dial(_, _) => 1
    case _ => 0
  }

  /** The final state, the bytes written and the bytes left unread. */
  datatype Ran<Pc> = Ran(pc: Pc, out: Bytes, rest: Bytes)

  function ClientRun(c: Client, pc: ClientPc, input: Bytes): Ran<ClientPc>
    decreases ClientRank(pc)
  {
    if ClientDone(pc) then Ran(pc, [], input)
    else if |input| < ClientNeed(pc) then Ran(Failed, [], [])
    else
      var step := ClientAct(c, pc, input[..ClientNeed(pc)]);
      var more := ClientRun(c, step.pc, input[ClientNeed(pc)..]);
      Ran(more.pc, step.out + more.out, more.rest)
  }

  function ServerRun(s: Server, dial: Dialer, pc: ServerPc, input: Bytes): Ran<ServerPc>
    requires AddressSized(pc)
    decreases ServerRank(pc)
  {
    if ServerDone(pc) then Ran(pc, [], input)
    else if pc.Peek? then
      if input == [] then Ran(Closed, [], [])
      else if input[0] == 5 then ServerRun(s, dial, ReadGreeting, input)
      else Ran(Http, [], input)
    else if |input| < ServerNeed(pc) then Ran(Closed, ServerEof(pc), [])
    else
      var step := ServerAct(s, dial, pc, input[..ServerNeed(pc)]);
      var more := ServerRun(s, dial, step.pc, input[ServerNeed(pc)..]);
      Ran(more.pc, step.out + more.out, more.rest)
  }
}
