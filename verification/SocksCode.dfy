/**
 The straight-line code of both SOCKS5 ends over connections that deliver their bytes in
 arbitrary fragments, proved against the step functions of module Socks.
 */
module SocksCode {
  import opened Socks
  import opened SocksWire

  /** One end of a connection: bytes still to arrive before the peer closes, and bytes written. */
  class Conn {
    var incoming: Bytes
    var written: Bytes
    var turn: nat
    /** How many bytes the k-th read delivers at most (at least one, when any are left). */
    const fragment: nat -> nat

    constructor (incoming: Bytes, fragment: nat -> nat)
      ensures this.incoming == incoming && written == []
    {
      this.incoming, this.written, this.turn, this.fragment := incoming, [], 0, fragment;
    }

    /** conn.Read with room for max bytes; an empty result is the end of the stream. */
    method Read(max: nat) returns (data: Bytes)
      modifies this`incoming, this`turn
      ensures |data| <= max && data + incoming == old(incoming)
      ensures max > 0 && old(incoming) != [] ==> data != []
    {
      var size := if fragment(turn) == 0 then 1 else fragment(turn);
      var n := if size < max then size else max;
      n := if n < |incoming| then n else |incoming|;
      data, incoming, turn := incoming[..n], incoming[n..], turn + 1;
    }

    method Write(data: Bytes)
      modifies this`written
      ensures written == old(written) + data
    {
      written := written + data;
    }

    /** io.ReadFull: exactly n bytes, or failure after draining the stream. */
    method ReadFull(n: nat) returns (ok: bool, data: Bytes)
      modifies this`incoming, this`turn
      ensures ok <==> n <= |old(incoming)|
      ensures ok ==> data == old(incoming)[..n] && incoming == old(incoming)[n..]
      ensures !ok ==> incoming == []
    {
      data := [];
      while |data| < n
        invariant |data| <= n && data + incoming == old(incoming)
        decreases n - |data|
      {
        var more := Read(n - |data|);
        if more == [] { return false, data; }
        assert data + (more + incoming) == (data + more) + incoming;
        data := data + more;
      }
      ok := true;
      assert data == old(incoming)[..n] && incoming == old(incoming)[n..];
    }
  }

  /** The buffered reader of the server: bytes already taken from the connection but not consumed. */
  class Reader {
    const conn: Conn
    var buffer: Bytes

    constructor (conn: Conn)
      ensures this.conn == conn && buffer == []
    {
      this.conn, this.buffer := conn, [];
    }

    /** Everything the server has not consumed yet. */
    ghost function Pending(): Bytes reads this, conn { buffer + conn.incoming }

    const SIZE := 32768

    /** br.Peek(1). */
    method Peek() returns (ok: bool, first: byte)
      modifies this`buffer, conn`incoming, conn`turn
      ensures Pending() == old(Pending())
      ensures ok <==> old(Pending()) != []
      ensures ok ==> first == old(Pending())[0]
    {
      if buffer == [] { buffer := conn.Read(SIZE); }
      if buffer == [] { return false, 0; }
      return true, buffer[0];
    }

    /** br.Read, then io.ReadFull on top of it. */
    method ReadFull(n: nat) returns (ok: bool, data: Bytes)
      modifies this`buffer, conn`incoming, conn`turn
      ensures ok <==> n <= |old(Pending())|
      ensures ok ==> data == old(Pending())[..n] && Pending() == old(Pending())[n..]
      ensures !ok ==> Pending() == []
    {
      data := [];
      while |data| < n
        invariant |data| <= n && data + Pending() == old(Pending())
        decreases n - |data|
      {
        ghost var before := Pending();
        if buffer == [] { buffer := conn.Read(SIZE); }
        assert Pending() == before;
        if buffer == [] { return false, data; }
        var k := if |buffer| < n - |data| then |buffer| else n - |data|;
        ghost var taken := buffer[..k];
        assert buffer == taken + buffer[k..];
        assert data + (taken + (buffer[k..] + conn.incoming)) == (data + taken) + (buffer[k..] + conn.incoming);
        assert Pending() == taken + (buffer[k..] + conn.incoming);
        data, buffer := data + buffer[..k], buffer[k..];
      }
      ok := true;
      assert data == old(Pending())[..n] && Pending() == old(Pending())[n..];
    }
  }

  // ---------- client ----------

  /**
   A claim about where the client stands: its state, the bytes still to arrive and the bytes
   written. The code below is proved for every claim that the client's steps preserve.
   */
  type ClientClaim = (ClientPc, Bytes, Bytes) -> bool

  ghost function Append(written: Bytes, out: Bytes): Bytes {
    if out == [] then written else written + out
  }

  ghost predicate ClientStepKeeps(c: Client, at: ClientClaim, pc: ClientPc, incoming: Bytes, written: Bytes) {
    at(pc, incoming, written) && !ClientDone(pc) ==>
      if |incoming| < ClientNeed(pc) then at(Failed, [], written)
      else
        var step := ClientAct(c, pc, incoming[..ClientNeed(pc)]);
        at(step.pc, incoming[ClientNeed(pc)..], Append(written, step.out))
  }

  ghost predicate ClientPreserved(c: Client, at: ClientClaim) {
    forall pc, incoming, written {:trigger ClientStepKeeps(c, at, pc, incoming, written)} ::
      ClientStepKeeps(c, at, pc, incoming, written)
  }

  /** io.ReadFull in a reading state: where the client stands afterwards. */
  method ClientReads(conn: Conn, c: Client, pc: ClientPc, ghost at: ClientClaim) returns (got: bool, data: Bytes)
    requires ClientPreserved(c, at) && at(pc, conn.incoming, conn.written)
    requires !ClientDone(pc) && !pc.Greet? && !pc.SendAuth? && !pc.SendRequest?
    modifies conn`incoming, conn`turn
    ensures !got ==> at(Failed, conn.incoming, conn.written)
    ensures got ==> |data| == ClientNeed(pc)
    ensures got ==> at(ClientAct(c, pc, data).pc, conn.incoming, conn.written)
  {
    assert ClientStepKeeps(c, at, pc, conn.incoming, conn.written);
    got, data := conn.ReadFull(ClientNeed(pc));
  }

  /** A state that needs no input: what it writes, if anything, is req. */
  method ClientWrites(conn: Conn, c: Client, pc: ClientPc, req: Bytes, ghost at: ClientClaim)
    requires ClientPreserved(c, at) && at(pc, conn.incoming, conn.written)
    requires pc.Greet? || pc.SendAuth? || pc.SendRequest?
    requires req != [] && ClientAct(c, pc, []).out == req
    modifies conn`written
    ensures at(ClientAct(c, pc, []).pc, conn.incoming, conn.written)
  {
    assert ClientStepKeeps(c, at, pc, conn.incoming, conn.written);
    assert conn.incoming[..0] == [] && conn.incoming[0..] == conn.incoming;
    conn.Write(req);
  }

  lemma ClientGivesUp(conn: Conn, c: Client, pc: ClientPc, at: ClientClaim)
    requires ClientPreserved(c, at) && at(pc, conn.incoming, conn.written)
    requires pc.SendAuth? || pc.SendRequest?
    requires ClientAct(c, pc, []) == Sent(Failed, [])
    ensures at(Failed, conn.incoming, conn.written)
  {
    assert ClientStepKeeps(c, at, pc, conn.incoming, conn.written);
    assert conn.incoming[..0] == [] && conn.incoming[0..] == conn.incoming;
  }

  ghost predicate ClientAt(c: Client, whole: Ran<ClientPc>, base: Bytes, pc: ClientPc, incoming: Bytes, written: Bytes) {
    var now := ClientRun(c, pc, incoming);
    whole.pc == now.pc && whole.rest == now.rest && base + whole.out == written + now.out
  }

  lemma ClientRunKeeps(c: Client, whole: Ran<ClientPc>, base: Bytes, pc: ClientPc, incoming: Bytes, written: Bytes)
    requires ClientAt(c, whole, base, pc, incoming, written) && !ClientDone(pc)
    ensures |incoming| < ClientNeed(pc) ==> ClientAt(c, whole, base, Failed, [], written)
    ensures |incoming| >= ClientNeed(pc) ==>
      var step := ClientAct(c, pc, incoming[..ClientNeed(pc)]);
      ClientAt(c, whole, base, step.pc, incoming[ClientNeed(pc)..], Append(written, step.out))
  {
    if |incoming| >= ClientNeed(pc) {
      var step := ClientAct(c, pc, incoming[..ClientNeed(pc)]);
      var more := ClientRun(c, step.pc, incoming[ClientNeed(pc)..]);
      assert ClientRun(c, pc, incoming) == Ran(more.pc, step.out + more.out, more.rest);
      AppendMore(written, step.out, more.out);
    }
  }

  lemma AppendMore(written: Bytes, out: Bytes, more: Bytes)
    ensures written + (out + more) == Append(written, out) + more
  {
  }

  /** Being on the way to the result of the whole run is such a claim. */
  lemma ClientRunIsPreserved(c: Client, whole: Ran<ClientPc>, base: Bytes)
    ensures ClientPreserved(c, (pc, incoming, written) => ClientAt(c, whole, base, pc, incoming, written))
  {
    var at: ClientClaim := (pc, incoming, written) => ClientAt(c, whole, base, pc, incoming, written);
    forall pc, incoming, written ensures ClientStepKeeps(c, at, pc, incoming, written) {
      if at(pc, incoming, written) && !ClientDone(pc) { ClientRunKeeps(c, whole, base, pc, incoming, written); }
    }
  }

  /** socks5ClientAuth. */
  method Socks5ClientAuth(conn: Conn, c: Client, ghost at: ClientClaim) returns (ok: bool)
    requires ClientPreserved(c, at) && at(SendAuth, conn.incoming, conn.written)
    modifies conn
    ensures at(if ok then SendRequest else Failed, conn.incoming, conn.written)
  {
    if |c.user| > 255 || |c.pass| > 255 {
      ClientGivesUp(conn, c, SendAuth, at);
      return false;
    }
    var req: Bytes := [1, Low(|c.user|)];
    req := req + c.user;
    req := req + [Low(|c.pass|)];
    req := req + c.pass;
    ClientWrites(conn, c, SendAuth, req, at);
    var got, resp := ClientReads(conn, c, ReadAuth, at);
    if !got { return false; }
    return resp[1] == 0;
  }

  /**
   socks5Connect after the dial of the proxy: over any fragmentation it writes, consumes and
   returns exactly what the step functions prescribe for the stream it is given.
   */
  method Socks5Connect(conn: Conn, c: Client) returns (ok: bool)
    modifies conn
    ensures var run := ClientRun(c, Greet, old(conn.incoming));
            && (ok <==> run.pc == Connected)
            && conn.written == old(conn.written) + run.out
            && conn.incoming == run.rest
    ensures var input := old(conn.incoming); var m := MethodEnd(c, input);
            && (ok <==> m > 0 && CanRequest(c) && ReplyEnd(input[m..]) > 0)
            && (ok ==> conn.written == old(conn.written) + Asked(c, m) && conn.incoming == input[m + ReplyEnd(input[m..])..])
  {
    ClientMeetsAnyServer(c, conn.incoming);
    ghost var whole, base := ClientRun(c, Greet, conn.incoming), conn.written;
    ghost var at: ClientClaim := (pc, incoming, written) => ClientAt(c, whole, base, pc, incoming, written);
    ClientRunIsPreserved(c, whole, base);
    ok := Socks5Greet(conn, c, at);
    assert conn.written + [] == conn.written;
  }

  /** From the greeting to the request. */
  method Socks5Greet(conn: Conn, c: Client, ghost at: ClientClaim) returns (ok: bool)
    requires ClientPreserved(c, at) && at(Greet, conn.incoming, conn.written)
    modifies conn
    ensures at(if ok then Connected else Failed, conn.incoming, conn.written)
  {
    ok := false;
    var methods: Bytes := [0];
    if c.user != [] { methods := methods + [2]; }
    ClientWrites(conn, c, Greet, [5, |methods| as byte] + methods, at);
    var got, resp := ClientReads(conn, c, ReadMethod, at);
    if !got || resp[0] != 5 { return; }
    if resp[1] == 0 {
    } else if resp[1] == 2 {
      if c.user == [] { return; }
      var authenticated := Socks5ClientAuth(conn, c, at);
      if !authenticated { return; }
    } else {
      return;
    }
    ok := Socks5SendRequest(conn, c, at);
  }

  /** The request. */
  method Socks5SendRequest(conn: Conn, c: Client, ghost at: ClientClaim) returns (ok: bool)
    requires ClientPreserved(c, at) && at(SendRequest, conn.incoming, conn.written)
    modifies conn
    ensures at(if ok then Connected else Failed, conn.incoming, conn.written)
  {
    if c.target.Unusable? || (c.target.host.Domain? && |c.target.host.name| > 255) {
      ClientGivesUp(conn, c, SendRequest, at);
      return false;
    }
    var port := c.target.port;
    var req: Bytes := [5, 1, 0];
    match c.target.host {
      case IPv4(octets) =>
        req := req + ([1] + octets);
      case IPv6(octets) =>
        req := req + ([4] + octets);
      case Domain(name) =>
        req := req + ([3, Low(|name|)] + name);
    }
    req := req + [Low(port / 256), Low(port)];
    ClientWrites(conn, c, SendRequest, req, at);
    ok := Socks5ReadReply(conn, c, at);
  }

  /** The reply, read to its last byte. */
  method Socks5ReadReply(conn: Conn, c: Client, ghost at: ClientClaim) returns (ok: bool)
    requires ClientPreserved(c, at) && at(ReadHead, conn.incoming, conn.written)
    modifies conn
    ensures at(if ok then Connected else Failed, conn.incoming, conn.written)
  {
    ok := false;
    var got, head := ClientReads(conn, c, ReadHead, at);
    if !got || head[1] != 0 { return; }
    var n: nat;
    if head[3] == 1 {
      n := 4;
    } else if head[3] == 4 {
      n := 16;
    } else if head[3] == 3 {
      var l: Bytes;
      got, l := ClientReads(conn, c, ReadDomainLength, at);
      if !got { return; }
      n := l[0] as nat;
    } else {
      return;
    }
    var discarded: Bytes;
    got, discarded := ClientReads(conn, c, SkipAddress(n), at);
    if !got { return; }
    var portBuf: Bytes;
    got, portBuf := ClientReads(conn, c, SkipPort, at);
    ok := got;
  }

  // ---------- server ----------

  /**
   A claim about where the server stands: its state, the bytes pending and the bytes written.
   The code below is proved for every claim that the server's steps preserve.
   */
  type Claim = (ServerPc, Bytes, Bytes) -> bool

  ghost predicate StepKeeps(s: Server, dial: Dialer, at: Claim, pc: ServerPc, pending: Bytes, written: Bytes) {
    at(pc, pending, written) && AddressSized(pc) && !ServerDone(pc) && !pc.Peek? ==>
      if |pending| < ServerNeed(pc) then at(Closed, [], Append(written, ServerEof(pc)))
      else
        var step := ServerAct(s, dial, pc, pending[..ServerNeed(pc)]);
        at(step.pc, pending[ServerNeed(pc)..], Append(written, step.out))
  }

  ghost predicate Preserved(s: Server, dial: Dialer, at: Claim) {
    forall pc, pending, written {:trigger StepKeeps(s, dial, at, pc, pending, written)} ::
      StepKeeps(s, dial, at, pc, pending, written)
  }

  /** io.ReadFull on the buffered reader; what the state still has to write is left to the caller. */
  method ServerReads(br: Reader, s: Server, dial: Dialer, pc: ServerPc, ghost at: Claim)
    returns (got: bool, data: Bytes)
    requires Preserved(s, dial, at)
    requires at(pc, br.Pending(), br.conn.written) && AddressSized(pc) && !ServerDone(pc) && !pc.Peek? && !pc.Dial?
    modifies br`buffer, br.conn`incoming, br.conn`turn
    ensures !got ==> at(Closed, br.Pending(), Append(br.conn.written, ServerEof(pc)))
    ensures got ==> |data| == ServerNeed(pc)
    ensures got ==>
      var step := ServerAct(s, dial, pc, data);
      at(step.pc, br.Pending(), Append(br.conn.written, step.out))
  {
    assert StepKeeps(s, dial, at, pc, br.Pending(), br.conn.written);
    got, data := br.ReadFull(ServerNeed(pc));
  }

  ghost predicate ServerAt(s: Server, dial: Dialer, whole: Ran<ServerPc>, base: Bytes, pc: ServerPc, pending: Bytes, written: Bytes) {
    && AddressSized(pc)
    && var now := ServerRun(s, dial, pc, pending);
    && whole.pc == now.pc && whole.rest == now.rest && base + whole.out == written + now.out
  }

  lemma RunKeeps(s: Server, dial: Dialer, whole: Ran<ServerPc>, base: Bytes, pc: ServerPc, pending: Bytes, written: Bytes)
    requires ServerAt(s, dial, whole, base, pc, pending, written) && !ServerDone(pc) && !pc.Peek?
    ensures |pending| < ServerNeed(pc) ==> ServerAt(s, dial, whole, base, Closed, [], Append(written, ServerEof(pc)))
    ensures |pending| >= ServerNeed(pc) ==>
      var step := ServerAct(s, dial, pc, pending[..ServerNeed(pc)]);
      ServerAt(s, dial, whole, base, step.pc, pending[ServerNeed(pc)..], Append(written, step.out))
  {
    if |pending| >= ServerNeed(pc) {
      var step := ServerAct(s, dial, pc, pending[..ServerNeed(pc)]);
      var more := ServerRun(s, dial, step.pc, pending[ServerNeed(pc)..]);
      assert ServerRun(s, dial, pc, pending) == Ran(more.pc, step.out + more.out, more.rest);
      AppendMore(written, step.out, more.out);
    } else {
      assert Append(written, ServerEof(pc)) + [] == written + ServerEof(pc);
    }
  }

  /** Being on the way to the result of the whole run is such a claim. */
  lemma RunIsPreserved(s: Server, dial: Dialer, whole: Ran<ServerPc>, base: Bytes)
    ensures Preserved(s, dial, (pc, pending, written) => ServerAt(s, dial, whole, base, pc, pending, written))
  {
    var at: Claim := (pc, pending, written) => ServerAt(s, dial, whole, base, pc, pending, written);
    forall pc, pending, written ensures StepKeeps(s, dial, at, pc, pending, written) {
      if at(pc, pending, written) && AddressSized(pc) && !ServerDone(pc) && !pc.Peek? {
        RunKeeps(s, dial, whole, base, pc, pending, written);
      }
    }
  }

  /** The part of handle and handleSocks5 up to relay. */
  method HandleSocks5(br: Reader, s: Server, dial: Dialer) returns (pc: ServerPc)
    modifies br, br.conn
    ensures var run := ServerRun(s, dial, Peek, old(br.Pending()));
            && pc == run.pc
            && br.conn.written == old(br.conn.written) + run.out
            && br.Pending() == run.rest
    ensures var input := old(br.Pending());
            if input == [] then pc == Closed
            else if input[0] != 5 then pc == Http && br.Pending() == input && br.conn.written == old(br.conn.written)
            else exists r :: GreetingServed(s, dial, input, r) && pc == r.pc && br.Pending() == r.rest
                             && br.conn.written == old(br.conn.written) + r.out
  {
    ServerMeetsAnyClient(s, dial, br.Pending());
    ghost var whole, base := ServerRun(s, dial, Peek, br.Pending()), br.conn.written;
    ghost var at: Claim := (pc, pending, written) => ServerAt(s, dial, whole, base, pc, pending, written);
    RunIsPreserved(s, dial, whole, base);
    var some, first := br.Peek();
    if !some { return Closed; }
    if first != 5 { return Http; }
    pc := ReadHello(br, s, dial, at);
    assert br.conn.written + [] == br.conn.written;
  }

  /** From the greeting to the choice of a method. */
  method ReadHello(br: Reader, s: Server, dial: Dialer, ghost at: Claim) returns (pc: ServerPc)
    requires Preserved(s, dial, at) && at(ReadGreeting, br.Pending(), br.conn.written)
    modifies br, br.conn
    ensures ServerDone(pc) && at(pc, br.Pending(), br.conn.written)
  {
    pc := Closed;
    var got, head := ServerReads(br, s, dial, ReadGreeting, at);
    if !got || head[0] != 5 { return; }
    var methods: Bytes;
    got, methods := ServerReads(br, s, dial, ReadMethods(head[1] as nat), at);
    if !got { return; }
    var chosen: byte := 0;
    if s.AuthOn() {
      chosen := 2;
      var offered := false;
      for i := 0 to |methods|
        invariant offered <==> 2 in methods[..i]
      {
        assert methods[..i + 1] == methods[..i] + [methods[i]];
        if methods[i] == 2 { offered := true; break; }
      }
      assert methods[..|methods|] == methods;
      assert offered <==> 2 in methods;
      if !offered {
        br.conn.Write([5, 255]);
        return;
      }
    }
    br.conn.Write([5, chosen]);
    if chosen == 2 {
      var authenticated := SocksAuth(br, s, dial, at);
      if !authenticated { return; }
    }
    pc := ReadConnect(br, s, dial, at);
  }

  /** socksAuth. */
  method SocksAuth(br: Reader, s: Server, dial: Dialer, ghost at: Claim) returns (ok: bool)
    requires Preserved(s, dial, at) && at(ReadAuthHead, br.Pending(), br.conn.written)
    modifies br, br.conn
    ensures at(if ok then ReadRequest else Closed, br.Pending(), br.conn.written)
  {
    ok := false;
    var got, head := ServerReads(br, s, dial, ReadAuthHead, at);
    if !got { return; }
    if head[0] != 1 {
      br.conn.Write([1, 1]);
      return;
    }
    var uname, plen, passwd: Bytes;
    got, uname := ServerReads(br, s, dial, ReadUser(head[1] as nat), at);
    if !got { return; }
    got, plen := ServerReads(br, s, dial, ReadPassLength(uname), at);
    if !got { return; }
    got, passwd := ServerReads(br, s, dial, ReadPass(uname, plen[0] as nat), at);
    if !got { return; }
    if uname == s.user && passwd == s.pass {
      br.conn.Write([1, 0]);
      return true;
    }
    br.conn.Write([1, 1]);
  }

  /** readSocksAddr for the address types it knows. */
  method ReadSocksAddr(br: Reader, s: Server, dial: Dialer, atyp: byte, ghost at: Claim)
    returns (ok: bool, host: Address)
    requires atyp in {1, 3, 4} && Preserved(s, dial, at)
    requires at(if atyp == 3 then ReadNameLength else ReadAddress(atyp, if atyp == 1 then 4 else 16), br.Pending(), br.conn.written)
    modifies br, br.conn
    ensures br.conn.written == old(br.conn.written)
    ensures ok ==> at(ReadPort(host), br.Pending(), br.conn.written)
    ensures !ok ==> at(Closed, br.Pending(), br.conn.written + Reply(8))
  {
    ok, host := false, Domain([]);
    var b: Bytes;
    if atyp == 1 {
      ok, b := ServerReads(br, s, dial, ReadAddress(1, 4), at);
      if ok { host := IPv4(b); }
    } else if atyp == 3 {
      var l: Bytes;
      ok, l := ServerReads(br, s, dial, ReadNameLength, at);
      if !ok { return; }
      ok, b := ServerReads(br, s, dial, ReadAddress(3, l[0] as nat), at);
      if ok { host := Domain(b); }
    } else {
      ok, b := ServerReads(br, s, dial, ReadAddress(4, 16), at);
      if ok { host := IPv6(b); }
    }
  }

  /** From the request to relay. */
  method ReadConnect(br: Reader, s: Server, dial: Dialer, ghost at: Claim) returns (pc: ServerPc)
    requires Preserved(s, dial, at) && at(ReadRequest, br.Pending(), br.conn.written)
    modifies br, br.conn
    ensures ServerDone(pc) && at(pc, br.Pending(), br.conn.written)
  {
    pc := Closed;
    var got, req := ServerReads(br, s, dial, ReadRequest, at);
    if !got { return; }
    if req[0] != 5 || req[1] != 1 {
      br.conn.Write(Reply(7));
      return;
    }
    if req[3] !in {1, 3, 4} {
      br.conn.Write(Reply(8));
      return;
    }
    var read, host := ReadSocksAddr(br, s, dial, req[3], at);
    if !read {
      br.conn.Write(Reply(8));
      return;
    }
    pc := DialAddress(br, s, dial, host, at);
  }

  /** The port, the dial and the reply. */
  method DialAddress(br: Reader, s: Server, dial: Dialer, host: Address, ghost at: Claim) returns (pc: ServerPc)
    requires Preserved(s, dial, at) && at(ReadPort(host), br.Pending(), br.conn.written)
    modifies br, br.conn
    ensures ServerDone(pc) && at(pc, br.Pending(), br.conn.written)
  {
    pc := Closed;
    var got, portBytes := ServerReads(br, s, dial, ReadPort(host), at);
    if !got { return; }
    var port := portBytes[0] as nat * 256 + portBytes[1] as nat;
    assert StepKeeps(s, dial, at, Dial(host, port), br.Pending(), br.conn.written);
    assert br.Pending()[..0] == [] && br.Pending()[0..] == br.Pending();
    if !dial(host, port) {
      br.conn.Write(Reply(5));
      return;
    }
    br.conn.Write(Reply(0));
    pc := Relay(host, port);
  }
}
