/**
 The two ends of the handshake against any peer that speaks RFC 1928 and RFC 1929: which byte streams
 make the client connect and the server relay, what each of them writes then, and what it leaves unread.
 */
module SocksWire {
  import opened Socks

  // ---------- runs without their unfolding ----------

  /** Always true. A proof that names a mark may unfold the run behind a claim; others see the claim only. */
  predicate Mark(k: int) { true }

  ghost predicate Goes(c: Client, pc: ClientPc, input: Bytes, r: Ran<ClientPc>) {
    forall k {:trigger Mark(k)} :: Mark(k) ==> ClientRun(c, pc, input) == r
  }

  lemma GoesToRun(c: Client, pc: ClientPc, input: Bytes, r: Ran<ClientPc>)
    requires Goes(c, pc, input, r)
    ensures ClientRun(c, pc, input) == r
  {
    assert Mark(0);
  }

  /** A completed read and what the client does next. */
  lemma GoOn(c: Client, pc: ClientPc, input: Bytes, data: Bytes, rest: Bytes, more: Ran<ClientPc>)
    requires !ClientDone(pc) && input == data + rest && |data| == ClientNeed(pc)
    requires Goes(c, ClientAct(c, pc, data).pc, rest, more)
    ensures Goes(c, pc, input, Ran(more.pc, ClientAct(c, pc, data).out + more.out, more.rest))
  {
    assert input[..|data|] == data && input[|data|..] == rest;
    GoesToRun(c, ClientAct(c, pc, data).pc, rest, more);
  }

  lemma GoNowhere(c: Client, pc: ClientPc, input: Bytes)
    ensures ClientDone(pc) ==> Goes(c, pc, input, Ran(pc, [], input))
    ensures !ClientDone(pc) && |input| < ClientNeed(pc) ==> Goes(c, pc, input, Ran(Failed, [], []))
  {
  }

  // ---------- the client ----------

  /** A reply of any server that reports success: any bound address of a known type, and a port. */
  predicate IsReply(r: Bytes) {
    && |r| >= 5 && r[1] == 0
    && (|| (r[3] == 1 && |r| == 10)
        || (r[3] == 4 && |r| == 22)
        || (r[3] == 3 && |r| == 7 + r[4] as int))
  }

  /** Where such a reply at the front of a stream ends; 0 if there is none. */
  function ReplyEnd(s: Bytes): (n: nat)
    ensures n <= |s|
    ensures forall k :: 0 <= k <= |s| && IsReply(s[..k]) <==> k == n > 0
  {
    if |s| < 7 || s[1] != 0 then 0
    else if s[3] == 1 then (if |s| >= 10 then 10 else 0)
    else if s[3] == 4 then (if |s| >= 22 then 22 else 0)
    else if s[3] == 3 then (if |s| >= 7 + s[4] as int then 7 + s[4] as int else 0)
    else 0
  }

  /** The client has connected, has written this and leaves this unread; or it has failed. */
  predicate Ends(r: Ran<ClientPc>, good: bool, out: Bytes, rest: Bytes) {
    (r.pc == Connected <==> good) && (good ==> r == Ran(Connected, out, rest))
  }

  lemma NoBytes(s: Bytes)
    ensures [] + s == s && s + [] == s
  {
  }

  lemma SkipsPort(c: Client, input: Bytes) returns (r: Ran<ClientPc>)
    ensures Goes(c, SkipPort, input, r) && Ends(r, |input| >= 2, [], if |input| >= 2 then input[2..] else [])
  {
    if |input| >= 2 {
      r := Ran(Connected, [], input[2..]);
      GoNowhere(c, Connected, input[2..]);
      GoOn(c, SkipPort, input, input[..2], input[2..], r);
      NoBytes([]);
    } else {
      r := Ran(Failed, [], []);
      GoNowhere(c, SkipPort, input);
    }
  }

  /** Reading an address of known length and the port. */
  lemma SkipsAddress(c: Client, n: nat, input: Bytes) returns (r: Ran<ClientPc>)
    ensures Goes(c, SkipAddress(n), input, r) && Ends(r, |input| >= n + 2, [], if |input| >= n + 2 then input[n + 2..] else [])
  {
    if |input| >= n {
      r := SkipsPort(c, input[n..]);
      GoOn(c, SkipAddress(n), input, input[..n], input[n..], r);
      NoBytes(r.out);
      if |input| >= n + 2 { assert input[n..][2..] == input[n + 2..]; }
    } else {
      r := Ran(Failed, [], []);
      GoNowhere(c, SkipAddress(n), input);
    }
  }

  /** What the client makes of a stream that begins with a reply, or does not. */
  lemma ReadsReply(c: Client, input: Bytes) returns (r: Ran<ClientPc>)
    ensures Goes(c, ReadHead, input, r) && Ends(r, ReplyEnd(input) > 0, [], input[ReplyEnd(input)..])
  {
    if |input| < 4 {
      r := Ran(Failed, [], []);
      GoNowhere(c, ReadHead, input);
    } else {
      var head, rest := input[..4], input[4..];
      if head[1] != 0 || (head[3] != 1 && head[3] != 3 && head[3] != 4) {
        r := Ran(Failed, [], rest);
        GoNowhere(c, Failed, rest);
      } else if head[3] == 3 {
        r := ReadsName(c, rest);
      } else {
        r := SkipsAddress(c, if head[3] == 1 then 4 else 16, rest);
      }
      GoOn(c, ReadHead, input, head, rest, r);
      NoBytes(r.out);
      RestOfReply(input);
    }
  }

  lemma ReadsName(c: Client, input: Bytes) returns (r: Ran<ClientPc>)
    ensures Goes(c, ReadDomainLength, input, r)
    ensures var good := |input| >= 1 && |input| >= input[0] as int + 3;
      Ends(r, good, [], if good then input[input[0] as int + 3..] else [])
  {
    if |input| >= 1 {
      r := SkipsAddress(c, input[0] as nat, input[1..]);
      GoOn(c, ReadDomainLength, input, input[..1], input[1..], r);
      NoBytes(r.out);
      if |input| >= input[0] as int + 3 { assert input[1..][input[0] as int + 2..] == input[input[0] as int + 3..]; }
    } else {
      r := Ran(Failed, [], []);
      GoNowhere(c, ReadDomainLength, input);
    }
  }

  /** What follows the first four bytes of a reply. */
  lemma RestOfReply(input: Bytes)
    requires |input| >= 4
    ensures var n, rest := ReplyEnd(input), input[4..];
      && (n > 0 ==> n >= 4 && input[n..] == rest[n - 4..])
      && (n > 0 <==>
            (&& input[1] == 0
             && (|| (input[3] == 1 && |rest| >= 6) || (input[3] == 4 && |rest| >= 18)
                 || (input[3] == 3 && |rest| >= 1 && |rest| >= rest[0] as int + 3))))
      && (n > 0 ==> n - 4 == if input[3] == 1 then 6 else if input[3] == 4 then 18 else rest[0] as int + 3)
  {
  }

  predicate CanRequest(c: Client) {
    c.target.Target? && (c.target.host.Domain? ==> |c.target.host.name| <= 255)
  }

  /** CONNECT with the address by its type, and the port as two bytes, most significant first. */
  function Wanted(a: Address, port: int): Bytes {
    (match a
     case IPv4(octets) => [5, 1, 0, 1] + octets
     case IPv6(octets) => [5, 1, 0, 4] + octets
     case Domain(name) => [5, 1, 0, 3, (|name| % 256) as byte] + name)
    + [((port / 256) % 256) as byte, (port % 256) as byte]
  }

  lemma RequestIsWanted(a: Address, port: int)
    ensures Request(a, port) == Wanted(a, port)
  {
  }

  /** From the request on. */
  lemma Requests(c: Client, input: Bytes) returns (r: Ran<ClientPc>)
    ensures Goes(c, SendRequest, input, r)
    ensures Ends(r, CanRequest(c) && ReplyEnd(input) > 0,
                 if CanRequest(c) then Wanted(c.target.host, c.target.port) else [], input[ReplyEnd(input)..])
  {
    NoBytes(input);
    if CanRequest(c) {
      r := ReadsReply(c, input);
      RequestIsWanted(c.target.host, c.target.port);
      GoOn(c, SendRequest, input, [], input, r);
      r := Ran(r.pc, Wanted(c.target.host, c.target.port) + r.out, r.rest);
      NoBytes(Wanted(c.target.host, c.target.port));
    } else {
      GoNowhere(c, Failed, input);
      r := Ran(Failed, [], input);
      GoOn(c, SendRequest, input, [], input, r);
      NoBytes([]);
    }
  }

  /** The sub-negotiation a client with these credentials sends. */
  function Credentials(c: Client): Bytes {
    [1, (|c.user| % 256) as byte] + c.user + [(|c.pass| % 256) as byte] + c.pass
  }

  predicate HasCredentials(c: Client) { c.user != [] && |c.user| <= 255 && |c.pass| <= 255 }

  /** From the credentials on, which are only sent by a client that has a user name. */
  lemma Authenticates(c: Client, input: Bytes) returns (r: Ran<ClientPc>)
    requires c.user != []
    ensures Goes(c, SendAuth, input, r)
    ensures var good := HasCredentials(c) && |input| >= 2 && input[1] == 0 && CanRequest(c) && ReplyEnd(input[2..]) > 0;
      Ends(r, good,
           if good then Credentials(c) + Wanted(c.target.host, c.target.port) else [],
           if good then input[2..][ReplyEnd(input[2..])..] else [])
  {
    NoBytes(input);
    if !HasCredentials(c) {
      r := Ran(Failed, [], input);
      GoNowhere(c, Failed, input);
      GoOn(c, SendAuth, input, [], input, r);
      NoBytes([]);
    } else {
      r := AuthAnswer(c, input);
      GoOn(c, SendAuth, input, [], input, r);
      assert AuthRequest(c) == Credentials(c);
      r := Ran(r.pc, Credentials(c) + r.out, r.rest);
    }
  }

  lemma AuthAnswer(c: Client, input: Bytes) returns (r: Ran<ClientPc>)
    ensures Goes(c, ReadAuth, input, r)
    ensures var good := |input| >= 2 && input[1] == 0 && CanRequest(c) && ReplyEnd(input[2..]) > 0;
      Ends(r, good, if good then Wanted(c.target.host, c.target.port) else [], if good then input[2..][ReplyEnd(input[2..])..] else [])
  {
    if |input| < 2 {
      r := Ran(Failed, [], []);
      GoNowhere(c, ReadAuth, input);
    } else {
      if input[1] == 0 {
        r := Requests(c, input[2..]);
      } else {
        r := Ran(Failed, [], input[2..]);
        GoNowhere(c, Failed, input[2..]);
      }
      GoOn(c, ReadAuth, input, input[..2], input[2..], r);
      NoBytes(r.out);
    }
  }

  function Offer(c: Client): Bytes { if c.user == [] then [5, 1, 0] else [5, 2, 0, 2] }

  /** How long the part of a server's answers in front of its reply is; 0 if it does not let the client go on. */
  function MethodEnd(c: Client, input: Bytes): (m: nat)
    ensures m <= |input|
  {
    if |input| >= 2 && input[0] == 5 && input[1] == 0 then 2
    else if |input| >= 4 && input[0] == 5 && input[1] == 2 && input[3] == 0 && HasCredentials(c) then 4
    else 0
  }

  /** What a client that connects has written: its offer, its credentials if they were asked for, its request. */
  function Asked(c: Client, m: nat): Bytes
    requires CanRequest(c)
  {
    Offer(c) + ((if m == 4 then Credentials(c) else []) + Wanted(c.target.host, c.target.port))
  }

  lemma Greets(c: Client, input: Bytes) returns (r: Ran<ClientPc>)
    ensures Goes(c, Greet, input, r)
    ensures var m := MethodEnd(c, input);
      var good := m > 0 && CanRequest(c) && ReplyEnd(input[m..]) > 0;
      Ends(r, good, if good then Asked(c, m) else [], if good then input[m..][ReplyEnd(input[m..])..] else [])
  {
    NoBytes(input);
    r := MethodAnswer(c, input);
    GoOn(c, Greet, input, [], input, r);
    r := Ran(r.pc, Offer(c) + r.out, r.rest);
  }

  lemma MethodAnswer(c: Client, input: Bytes) returns (r: Ran<ClientPc>)
    ensures Goes(c, ReadMethod, input, r)
    ensures var m := MethodEnd(c, input);
      var good := m > 0 && CanRequest(c) && ReplyEnd(input[m..]) > 0;
      Ends(r, good,
           if good then (if m == 4 then Credentials(c) else []) + Wanted(c.target.host, c.target.port) else [],
           if good then input[m..][ReplyEnd(input[m..])..] else [])
  {
    if |input| < 2 {
      r := Ran(Failed, [], []);
      GoNowhere(c, ReadMethod, input);
    } else {
      var rest := input[2..];
      if input[0] == 5 && input[1] == 0 {
        r := Requests(c, rest);
      } else if input[0] == 5 && input[1] == 2 && c.user != [] {
        r := Authenticates(c, rest);
        if |rest| >= 2 { assert rest[2..] == input[4..] && rest[1] == input[3]; }
      } else {
        r := Ran(Failed, [], rest);
        GoNowhere(c, Failed, rest);
      }
      GoOn(c, ReadMethod, input, input[..2], rest, r);
      NoBytes(r.out);
    }
  }

  /**
   Against any server the client connects exactly if the stream begins with a method it offered, the
   acceptance of its credentials where the method asks for them, and a successful reply with whatever
   address. It has then written offer, credentials if asked, and request, and leaves exactly what
   follows the reply unread.
   */
  lemma {:induction false} ClientMeetsAnyServer(c: Client, input: Bytes)
    ensures var r, m := ClientRun(c, Greet, input), MethodEnd(c, input);
      && (r.pc == Connected <==> m > 0 && CanRequest(c) && ReplyEnd(input[m..]) > 0)
      && (r.pc == Connected ==> r.out == Asked(c, m) && r.rest == input[m + ReplyEnd(input[m..])..])
  {
    var r := Greets(c, input);
    GoesToRun(c, Greet, input, r);
    var m := MethodEnd(c, input);
    assert input[m..][ReplyEnd(input[m..])..] == input[m + ReplyEnd(input[m..])..];
  }

  /** In particular, a complete answer in front of any payload connects it, whatever address the reply carries. */
  lemma {:induction false} AnswerConnects(c: Client, answer: Bytes, reply: Bytes, payload: Bytes)
    requires CanRequest(c) && IsReply(reply)
    requires answer == [5, 0] || (HasCredentials(c) && |answer| == 4 && answer[..2] == [5, 2] && answer[3] == 0)
    ensures ClientRun(c, Greet, answer + reply + payload) == Ran(Connected, Asked(c, |answer|), payload)
  {
    var input := answer + reply + payload;
    var m := |answer|;
    assert input[m..] == reply + payload && input[m..][..|reply|] == reply && input[m..][|reply|..] == payload;
    assert input[0] == answer[..2][0] && input[1] == answer[..2][1];
    assert MethodEnd(c, input) == m;
    ClientMeetsAnyServer(c, input);
  }

  // ---------- the server ----------

  ghost predicate Serves(s: Server, dial: Dialer, pc: ServerPc, input: Bytes, r: Ran<ServerPc>) {
    AddressSized(pc) && forall k {:trigger Mark(k)} :: Mark(k) ==> ServerRun(s, dial, pc, input) == r
  }

  lemma ServesRun(s: Server, dial: Dialer, pc: ServerPc, input: Bytes, r: Ran<ServerPc>)
    requires Serves(s, dial, pc, input, r)
    ensures ServerRun(s, dial, pc, input) == r
  {
    assert Mark(0);
  }

  lemma ServeOn(s: Server, dial: Dialer, pc: ServerPc, input: Bytes, data: Bytes, rest: Bytes, more: Ran<ServerPc>)
    requires AddressSized(pc) && !ServerDone(pc) && !pc.Peek? && input == data + rest && |data| == ServerNeed(pc)
    requires Serves(s, dial, ServerAct(s, dial, pc, data).pc, rest, more)
    ensures Serves(s, dial, pc, input, Ran(more.pc, ServerAct(s, dial, pc, data).out + more.out, more.rest))
  {
    assert input[..|data|] == data && input[|data|..] == rest;
    ServesRun(s, dial, ServerAct(s, dial, pc, data).pc, rest, more);
  }

  lemma ServeNoMore(s: Server, dial: Dialer, pc: ServerPc, input: Bytes)
    requires AddressSized(pc)
    ensures ServerDone(pc) ==> Serves(s, dial, pc, input, Ran(pc, [], input))
    ensures !ServerDone(pc) && !pc.Peek? && |input| < ServerNeed(pc) ==>
      Serves(s, dial, pc, input, Ran(Closed, ServerEof(pc), []))
  {
  }

  /** A reply of the server: the code, and the address 0.0.0.0 with port 0. */
  function Reported(code: byte): Bytes { [5, code, 0, 1, 0, 0, 0, 0, 0, 0] }

  /** Where a complete CONNECT request at the front of a stream ends; 0 if there is none. */
  function RequestEnd(q: Bytes): (n: nat)
    ensures n <= |q|
    ensures n > 0 ==> n >= 7
  {
    if |q| < 7 || q[0] != 5 || q[1] != 1 then 0
    else if q[3] == 1 then (if |q| >= 10 then 10 else 0)
    else if q[3] == 4 then (if |q| >= 22 then 22 else 0)
    else if q[3] == 3 then (if |q| >= 7 + q[4] as int then 7 + q[4] as int else 0)
    else 0
  }

  /** The address of the request is complete; its port may not be. */
  predicate HasAddress(q: Bytes) {
    && |q| >= 4 && q[0] == 5 && q[1] == 1
    && (|| (q[3] == 1 && |q| >= 8) || (q[3] == 4 && |q| >= 20)
        || (q[3] == 3 && |q| >= 5 && |q| >= 5 + q[4] as int))
  }

  function Requested(q: Bytes): Address
    requires RequestEnd(q) > 0
  {
    if q[3] == 1 then IPv4(q[4..8]) else if q[3] == 4 then IPv6(q[4..20]) else Domain(q[5..RequestEnd(q) - 2])
  }

  function RequestedPort(q: Bytes): nat
    requires RequestEnd(q) > 0
  {
    q[RequestEnd(q) - 2] as nat * 256 + q[RequestEnd(q) - 1] as nat
  }

  lemma Dials(s: Server, dial: Dialer, host: Address, port: nat, rest: Bytes) returns (r: Ran<ServerPc>)
    ensures Serves(s, dial, Dial(host, port), rest, r)
    ensures r == if dial(host, port) then Ran(Relay(host, port), Reported(0), rest) else Ran(Closed, Reported(5), rest)
  {
    var pc := if dial(host, port) then Relay(host, port) else Closed;
    ServeNoMore(s, dial, pc, rest);
    NoBytes(rest);
    ServeOn(s, dial, Dial(host, port), rest, [], rest, Ran(pc, [], rest));
    r := Ran(pc, if dial(host, port) then Reported(0) else Reported(5), rest);
    NoBytes(r.out);
  }

  /** The port and the dial. */
  lemma ServesPort(s: Server, dial: Dialer, host: Address, input: Bytes) returns (r: Ran<ServerPc>)
    ensures Serves(s, dial, ReadPort(host), input, r)
    ensures if |input| < 2 then r == Ran(Closed, [], [])
            else var port := input[0] as nat * 256 + input[1] as nat;
              r == if dial(host, port) then Ran(Relay(host, port), Reported(0), input[2..]) else Ran(Closed, Reported(5), input[2..])
  {
    if |input| < 2 {
      r := Ran(Closed, [], []);
      ServeNoMore(s, dial, ReadPort(host), input);
    } else {
      r := Dials(s, dial, host, input[0] as nat * 256 + input[1] as nat, input[2..]);
      ServeOn(s, dial, ReadPort(host), input, input[..2], input[2..], r);
      NoBytes(r.out);
    }
  }

  function AddressOf(kind: byte, data: Bytes): Address
    requires (kind == 1 && |data| == 4) || (kind == 4 && |data| == 16) || kind == 3
  {
    if kind == 1 then IPv4(data) else if kind == 4 then IPv6(data) else Domain(data)
  }

  lemma ServesAddress(s: Server, dial: Dialer, kind: byte, n: nat, input: Bytes) returns (r: Ran<ServerPc>)
    requires (kind == 1 && n == 4) || (kind == 4 && n == 16) || kind == 3
    ensures Serves(s, dial, ReadAddress(kind, n), input, r)
    ensures if |input| < n + 2 then r == Ran(Closed, if |input| < n then Reported(8) else [], [])
            else var host, port := AddressOf(kind, input[..n]), input[n] as nat * 256 + input[n + 1] as nat;
              r == if dial(host, port) then Ran(Relay(host, port), Reported(0), input[n + 2..]) else Ran(Closed, Reported(5), input[n + 2..])
  {
    if |input| < n {
      r := Ran(Closed, Reported(8), []);
      ServeNoMore(s, dial, ReadAddress(kind, n), input);
    } else {
      r := ServesPort(s, dial, AddressOf(kind, input[..n]), input[n..]);
      ServeOn(s, dial, ReadAddress(kind, n), input, input[..n], input[n..], r);
      NoBytes(r.out);
      if |input| >= n + 2 { assert input[n..][2..] == input[n + 2..] && input[n..][0] == input[n] && input[n..][1] == input[n + 1]; }
    }
  }

  /** What the server does with a stream that begins with the length of a name. */
  predicate NameServed(dial: Dialer, input: Bytes, r: Ran<ServerPc>) {
    if |input| < 1 || |input| < input[0] as int + 3
    then r == Ran(Closed, if |input| < 1 || |input| < input[0] as int + 1 then Reported(8) else [], [])
    else
      var n := input[0] as nat;
      var host, port := Domain(input[1..n + 1]), input[n + 1] as nat * 256 + input[n + 2] as nat;
      r == if dial(host, port) then Ran(Relay(host, port), Reported(0), input[n + 3..]) else Ran(Closed, Reported(5), input[n + 3..])
  }

  lemma ServesName(s: Server, dial: Dialer, input: Bytes) returns (r: Ran<ServerPc>)
    ensures Serves(s, dial, ReadNameLength, input, r) && NameServed(dial, input, r)
  {
    if |input| < 1 {
      r := Ran(Closed, Reported(8), []);
      ServeNoMore(s, dial, ReadNameLength, input);
    } else {
      var n, rest := input[0] as nat, input[1..];
      r := ServesAddress(s, dial, 3, n, rest);
      ServeOn(s, dial, ReadNameLength, input, input[..1], rest, r);
      NoBytes(r.out);
      if |rest| >= n + 2 { assert rest[n + 2..] == input[n + 3..] && rest[..n] == input[1..n + 1]; }
    }
  }

  /** What the server does with a stream from the request on. */
  predicate RequestServed(dial: Dialer, q: Bytes, r: Ran<ServerPc>) {
    && (RequestEnd(q) == 0 ==> r.pc == Closed)
    && (|q| < 4 || (HasAddress(q) && RequestEnd(q) == 0) ==> r == Ran(Closed, [], []))
    && (|q| >= 4 && q[0] == 5 && q[1] == 1 && q[3] in {1, 3, 4} && !HasAddress(q) ==> r == Ran(Closed, Reported(8), []))
    && (RequestEnd(q) > 0 ==>
          var host, port, rest := Requested(q), RequestedPort(q), q[RequestEnd(q)..];
          r == if dial(host, port) then Ran(Relay(host, port), Reported(0), rest) else Ran(Closed, Reported(5), rest))
    && (|q| >= 4 && (q[0] != 5 || q[1] != 1) ==> r == Ran(Closed, Reported(7), q[4..]))
    && (|q| >= 4 && q[0] == 5 && q[1] == 1 && q[3] !in {1, 3, 4} ==> r == Ran(Closed, Reported(8), q[4..]))
  }

  lemma ServesRequest(s: Server, dial: Dialer, input: Bytes) returns (r: Ran<ServerPc>)
    ensures Serves(s, dial, ReadRequest, input, r) && RequestServed(dial, input, r)
  {
    if |input| < 4 {
      r := Ran(Closed, [], []);
      ServeNoMore(s, dial, ReadRequest, input);
    } else {
      var head, rest := input[..4], input[4..];
      if head[0] != 5 || head[1] != 1 || head[3] !in {1, 3, 4} {
        ServeNoMore(s, dial, Closed, rest);
        ServeOn(s, dial, ReadRequest, input, head, rest, Ran(Closed, [], rest));
        r := Ran(Closed, if head[0] != 5 || head[1] != 1 then Reported(7) else Reported(8), rest);
        NoBytes(r.out);
      } else {
        r := ServesTarget(s, dial, input);
        ServeOn(s, dial, ReadRequest, input, head, rest, r);
        NoBytes(r.out);
      }
    }
  }

  lemma ServesTarget(s: Server, dial: Dialer, q: Bytes) returns (r: Ran<ServerPc>)
    requires |q| >= 4 && q[0] == 5 && q[1] == 1 && q[3] in {1, 3, 4}
    ensures Serves(s, dial, ServerAct(s, dial, ReadRequest, q[..4]).pc, q[4..], r) && RequestServed(dial, q, r)
  {
    if q[3] == 3 { r := NamedTarget(s, dial, q); } else { r := NumberedTarget(s, dial, q); }
  }

  lemma NamedTarget(s: Server, dial: Dialer, q: Bytes) returns (r: Ran<ServerPc>)
    requires |q| >= 4 && q[0] == 5 && q[1] == 1 && q[3] == 3
    ensures Serves(s, dial, ReadNameLength, q[4..], r) && RequestServed(dial, q, r)
  {
    r := ServesName(s, dial, q[4..]);
    NameIsRequest(dial, q, r);
  }

  lemma NameIsRequest(dial: Dialer, q: Bytes, r: Ran<ServerPc>)
    requires |q| >= 4 && q[0] == 5 && q[1] == 1 && q[3] == 3 && NameServed(dial, q[4..], r)
    ensures RequestServed(dial, q, r)
  {
    var rest := q[4..];
    if RequestEnd(q) > 0 {
      var n := q[4] as nat;
      assert RequestEnd(q) == n + 7 && rest[0] == q[4];
      assert rest[n + 3..] == q[n + 7..] && rest[1..n + 1] == q[5..n + 5];
    }
  }

  lemma NumberedTarget(s: Server, dial: Dialer, q: Bytes) returns (r: Ran<ServerPc>)
    requires |q| >= 4 && q[0] == 5 && q[1] == 1 && (q[3] == 1 || q[3] == 4)
    ensures Serves(s, dial, if q[3] == 1 then ReadAddress(1, 4) else ReadAddress(4, 16), q[4..], r) && RequestServed(dial, q, r)
  {
    var n, rest := if q[3] == 1 then 4 else 16, q[4..];
    r := ServesAddress(s, dial, q[3], n, rest);
    if RequestEnd(q) > 0 {
      assert RequestEnd(q) == n + 6;
      assert rest[n + 2..] == q[n + 6..] && rest[..n] == q[4..n + 4];
    }
  }

  /** The length of the sub-negotiation of RFC 1929 at the front of a stream; 0 if it is not complete. */
  function AuthEnd(t: Bytes): (n: nat)
    ensures n <= |t|
  {
    if |t| < 2 || t[0] != 1 || |t| < 3 + t[1] as int then 0
    else
      var p := t[2 + t[1] as int];
      if |t| < 3 + t[1] as int + p as int then 0 else 3 + t[1] as int + p as int
  }

  function GivenUser(t: Bytes): Bytes
    requires AuthEnd(t) > 0
  {
    t[2..2 + t[1] as int]
  }

  function GivenPass(t: Bytes): Bytes
    requires AuthEnd(t) > 0
  {
    t[3 + t[1] as int..AuthEnd(t)]
  }

  /** What the server does with a stream from the credentials on: [1, 0] and go on, or [1, 1]. */
  ghost predicate AuthServed(s: Server, dial: Dialer, t: Bytes, r: Ran<ServerPc>) {
    && (AuthEnd(t) == 0 ==> r.pc == Closed && r.out == if |t| >= 2 && t[0] != 1 then [1, 1] else [])
    && (AuthEnd(t) > 0 && (GivenUser(t) != s.user || GivenPass(t) != s.pass) ==> r == Ran(Closed, [1, 1], t[AuthEnd(t)..]))
    && (AuthEnd(t) > 0 && GivenUser(t) == s.user && GivenPass(t) == s.pass ==>
          exists more :: RequestServed(dial, t[AuthEnd(t)..], more) && r == Ran(more.pc, [1, 0] + more.out, more.rest))
  }

  /** What the server does with a stream that begins with a password of this length. */
  ghost predicate PassServed(s: Server, dial: Dialer, user: Bytes, m: nat, input: Bytes, r: Ran<ServerPc>) {
    && (|input| < m ==> r == Ran(Closed, [], []))
    && (|input| >= m && (user != s.user || input[..m] != s.pass) ==> r == Ran(Closed, [1, 1], input[m..]))
    && (|input| >= m && user == s.user && input[..m] == s.pass ==>
          exists more :: RequestServed(dial, input[m..], more) && r == Ran(more.pc, [1, 0] + more.out, more.rest))
  }

  lemma ServesPass(s: Server, dial: Dialer, user: Bytes, m: nat, input: Bytes) returns (r: Ran<ServerPc>)
    ensures Serves(s, dial, ReadPass(user, m), input, r) && PassServed(s, dial, user, m, input, r)
  {
    if |input| < m {
      r := Ran(Closed, [], []);
      ServeNoMore(s, dial, ReadPass(user, m), input);
    } else {
      var rest := input[m..];
      if user == s.user && input[..m] == s.pass {
        var more := ServesRequest(s, dial, rest);
        ServeOn(s, dial, ReadPass(user, m), input, input[..m], rest, more);
        r := Ran(more.pc, [1, 0] + more.out, more.rest);
      } else {
        ServeNoMore(s, dial, Closed, rest);
        ServeOn(s, dial, ReadPass(user, m), input, input[..m], rest, Ran(Closed, [], rest));
        NoBytes([1, 1]);
        r := Ran(Closed, [1, 1], rest);
      }
    }
  }

  lemma AuthParts(t: Bytes, u: nat, m: nat)
    requires |t| >= 3 + u && t[0] == 1 && t[1] as int == u && t[2 + u] as int == m
    ensures AuthEnd(t) > 0 <==> |t[3 + u..]| >= m
    ensures AuthEnd(t) > 0 ==>
      && GivenUser(t) == t[2..2 + u] && GivenPass(t) == t[3 + u..][..m] && t[AuthEnd(t)..] == t[3 + u..][m..]
  {
  }

  lemma PassIsAuth(s: Server, dial: Dialer, t: Bytes, u: nat, m: nat, r: Ran<ServerPc>)
    requires |t| >= 3 + u && t[0] == 1 && t[1] as int == u && t[2 + u] as int == m
    requires PassServed(s, dial, t[2..2 + u], m, t[3 + u..], r)
    ensures AuthServed(s, dial, t, r)
  {
    AuthParts(t, u, m);
  }

  lemma ServesUser(s: Server, dial: Dialer, t: Bytes) returns (r: Ran<ServerPc>)
    requires |t| >= 2 && t[0] == 1
    ensures Serves(s, dial, ReadUser(t[1] as nat), t[2..], r) && AuthServed(s, dial, t, r)
  {
    var u, rest := t[1] as nat, t[2..];
    if |rest| < u {
      r := Ran(Closed, [], []);
      ServeNoMore(s, dial, ReadUser(u), rest);
    } else {
      r := ServesPassLength(s, dial, t);
      assert rest[..u] == t[2..2 + u] && rest[u..] == t[2 + u..];
      ServeOn(s, dial, ReadUser(u), rest, rest[..u], rest[u..], r);
      NoBytes(r.out);
    }
  }

  lemma ServesPassLength(s: Server, dial: Dialer, t: Bytes) returns (r: Ran<ServerPc>)
    requires |t| >= 2 && t[0] == 1 && |t| >= 2 + t[1] as int
    ensures Serves(s, dial, ReadPassLength(t[2..2 + t[1] as int]), t[2 + t[1] as int..], r) && AuthServed(s, dial, t, r)
  {
    var u := t[1] as nat;
    var user, rest := t[2..2 + u], t[2 + u..];
    if |rest| < 1 {
      r := Ran(Closed, [], []);
      ServeNoMore(s, dial, ReadPassLength(user), rest);
    } else {
      assert rest[1..] == t[3 + u..];
      r := ServesPass(s, dial, user, rest[0] as nat, rest[1..]);
      PassIsAuth(s, dial, t, u, rest[0] as nat, r);
      ServeOn(s, dial, ReadPassLength(user), rest, rest[..1], rest[1..], r);
      NoBytes(r.out);
    }
  }

  lemma ServesAuth(s: Server, dial: Dialer, t: Bytes) returns (r: Ran<ServerPc>)
    ensures Serves(s, dial, ReadAuthHead, t, r) && AuthServed(s, dial, t, r)
  {
    if |t| < 2 {
      r := Ran(Closed, [], []);
      ServeNoMore(s, dial, ReadAuthHead, t);
    } else {
      var rest := t[2..];
      if t[0] != 1 {
        ServeNoMore(s, dial, Closed, rest);
        ServeOn(s, dial, ReadAuthHead, t, t[..2], rest, Ran(Closed, [], rest));
        r := Ran(Closed, [1, 1] + [], rest);
      } else {
        r := ServesUser(s, dial, t);
        ServeOn(s, dial, ReadAuthHead, t, t[..2], rest, r);
        NoBytes(r.out);
      }
    }
  }

  /** Where a complete greeting at the front of a stream ends; 0 if there is none. */
  function GreetingEnd(t: Bytes): (n: nat)
    ensures n <= |t|
    ensures n > 0 ==> n >= 2
  {
    if |t| < 2 || t[0] != 5 || |t| < 2 + t[1] as int then 0 else 2 + t[1] as int
  }

  /** What the server does with a stream from the greeting on. */
  ghost predicate GreetingServed(s: Server, dial: Dialer, t: Bytes, r: Ran<ServerPc>) {
    var g := GreetingEnd(t);
    && (g == 0 ==> r.pc == Closed && r.out == [])
    && (g > 0 && !s.AuthOn() ==>
          exists more :: RequestServed(dial, t[g..], more) && r == Ran(more.pc, [5, 0] + more.out, more.rest))
    && (g > 0 && s.AuthOn() && 2 !in t[2..g] ==> r == Ran(Closed, [5, 255], t[g..]))
    && (g > 0 && s.AuthOn() && 2 in t[2..g] ==>
          exists more :: AuthServed(s, dial, t[g..], more) && r == Ran(more.pc, [5, 2] + more.out, more.rest))
  }

  lemma ServesMethods(s: Server, dial: Dialer, t: Bytes) returns (r: Ran<ServerPc>)
    requires |t| >= 2 && t[0] == 5
    ensures Serves(s, dial, ReadMethods(t[1] as nat), t[2..], r) && GreetingServed(s, dial, t, r)
  {
    var n, rest := t[1] as nat, t[2..];
    if |rest| < n {
      r := Ran(Closed, [], []);
      ServeNoMore(s, dial, ReadMethods(n), rest);
    } else {
      var methods, more := rest[..n], rest[n..];
      assert methods == t[2..2 + n] && more == t[2 + n..];
      if !s.AuthOn() {
        r := ServesRequest(s, dial, more);
        ServeOn(s, dial, ReadMethods(n), rest, methods, more, r);
        r := Ran(r.pc, [5, 0] + r.out, r.rest);
      } else if 2 in methods {
        r := ServesAuth(s, dial, more);
        ServeOn(s, dial, ReadMethods(n), rest, methods, more, r);
        r := Ran(r.pc, [5, 2] + r.out, r.rest);
      } else {
        ServeNoMore(s, dial, Closed, more);
        ServeOn(s, dial, ReadMethods(n), rest, methods, more, Ran(Closed, [], more));
        r := Ran(Closed, [5, 255] + [], more);
      }
    }
  }

  lemma ServesGreeting(s: Server, dial: Dialer, t: Bytes) returns (r: Ran<ServerPc>)
    ensures Serves(s, dial, ReadGreeting, t, r) && GreetingServed(s, dial, t, r)
  {
    if |t| < 2 {
      r := Ran(Closed, [], []);
      ServeNoMore(s, dial, ReadGreeting, t);
    } else {
      var rest := t[2..];
      if t[0] != 5 {
        r := Ran(Closed, [], rest);
        ServeNoMore(s, dial, Closed, rest);
      } else {
        r := ServesMethods(s, dial, t);
      }
      ServeOn(s, dial, ReadGreeting, t, t[..2], rest, r);
      NoBytes(r.out);
    }
  }

  /** What the server makes of any stream: SOCKS5 by its first byte, everything else is handed on untouched. */
  lemma {:induction false} ServerMeetsAnyClient(s: Server, dial: Dialer, input: Bytes)
    ensures var r := ServerRun(s, dial, Peek, input);
      if input == [] then r == Ran(Closed, [], [])
      else if input[0] != 5 then r == Ran(Http, [], input)
      else GreetingServed(s, dial, input, r)
  {
    var r := ServesGreeting(s, dial, input);
    ServesRun(s, dial, ReadGreeting, input, r);
  }
}
