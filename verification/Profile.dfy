/**
 The OpenVPN profile validator: a grammar for profiles (items, their parser and their
 printer), the table of permitted directives, and the line-driven loop of the source
 proved against them.
 */
module Profile {
  import opened Common
  import opened Text

  // ---------- addresses ----------

  datatype Octets = Octets(a: nat, b: nat, c: nat, d: nat)

  /** net.ParseIP followed by To4: None when the text is not an address or has no IPv4 form. */
  type AddressParser = string -> Option<Octets>

  predicate Loopback(o: Octets) { o.a == 127 }
  predicate Private(o: Octets) { o.a == 10 || (o.a == 172 && 16 <= o.b <= 31) || (o.a == 192 && o.b == 168) }
  predicate LinkLocal(o: Octets) { o.a == 169 && o.b == 254 }

  predicate GlobalUnicast(o: Octets) {
    && o != Octets(255, 255, 255, 255)
    && o != Octets(0, 0, 0, 0)
    && !Loopback(o)
    && !(224 <= o.a <= 239)
    && !LinkLocal(o)
  }

  predicate IsPublicIPv4(s: string, parseIP: AddressParser) {
    match parseIP(s)
    case None => false
    case Some(o) =>
      GlobalUnicast(o) && !Private(o) && !Loopback(o) && !LinkLocal(o) && !(o.a == 100 && 64 <= o.b <= 127)
  }

  // ---------- permitted directives ----------

  /** What the arguments of a directive must look like. */
  datatype Shape =
    | Bare                                       // no argument
    | OneOf(values: set<string>)                 // exactly one, from a fixed set
    | Maybe(values: set<string>)                 // none, or one from a fixed set
    | Number(low: int, high: int)                // exactly one number in a range
    | InfiniteOrNumber(low: int, high: int)
    | Token                                      // exactly one token of harmless characters
    | RemoteAddress                              // address, port and an optional protocol

  const PROTOCOLS: set<string> := {"udp", "udp4", "tcp", "tcp4", "tcp-client"}

  const MAX_INT32 := 0x7FFF_FFFF

  function ShapeOf(name: string): Option<Shape> {
    if name in {"client", "nobind", "persist-key", "persist-tun", "auth-nocache", "pull", "fast-io"} then Some(Bare)
    else if name in {"dev", "dev-type"} then Some(OneOf({"tun"}))
    else if name == "proto" then Some(OneOf(PROTOCOLS))
    else if name == "remote" then Some(RemoteAddress)
    else if name == "resolv-retry" then Some(InfiniteOrNumber(1, MAX_INT32))
    else if name == "remote-cert-tls" then Some(OneOf({"server"}))
    else if name in {"cipher", "data-ciphers", "data-ciphers-fallback", "auth", "tls-cipher", "tls-ciphersuites"} then Some(Token)
    else if name == "comp-lzo" then Some(Maybe({"yes", "no", "adaptive"}))
    else if name == "compress" then Some(OneOf({"lz4", "lz4-v2", "stub", "stub-v2", "no"}))
    else if name == "key-direction" then Some(OneOf({"0", "1"}))
    else if name == "tls-version-min" then Some(OneOf({"1.2", "1.3"}))
    else if name == "verb" then Some(Number(0, 6))
    else if name in {"reneg-sec", "connect-timeout", "connect-retry", "sndbuf", "rcvbuf", "explicit-exit-notify"} then Some(Number(1, MAX_INT32))
    else None
  }

  predicate IsBoundedInt(s: string, low: int, high: int) {
    match Atoi(s)
    case None => false
    case Some(n) => low <= n <= high
  }

  predicate SafeChar(c: char) {
    'A' <= c <= 'Z' || 'a' <= c <= 'z' || IsDigit(c) || c in "_.:+,=/@-"
  }

  predicate SafeToken(s: string) { s != "" && forall i :: 0 <= i < |s| ==> SafeChar(s[i]) }

  predicate Fits(shape: Shape, args: seq<string>, ip: string, parseIP: AddressParser) {
    match shape
    case Bare => args == []
    case OneOf(values) => |args| == 1 && args[0] in values
    case Maybe(values) => args == [] || (|args| == 1 && args[0] in values)
    case Number(low, high) => |args| == 1 && IsBoundedInt(args[0], low, high)
    case InfiniteOrNumber(low, high) => |args| == 1 && (args[0] == "infinite" || IsBoundedInt(args[0], low, high))
    case Token => |args| == 1 && SafeToken(args[0])
    case RemoteAddress =>
      && 2 <= |args| <= 3
      && args[0] == ip
      && IsPublicIPv4(ip, parseIP)
      && IsBoundedInt(args[1], 1, 65535)
      && (|args| == 3 ==> args[2] in PROTOCOLS)
  }

  predicate Permitted(fields: seq<string>, ip: string, parseIP: AddressParser) {
    fields != [] && ShapeOf(fields[0]).Some? && Fits(ShapeOf(fields[0]).value, fields[1..], ip, parseIP)
  }

  /** validateDirective, in the order of the source; the pointer argument is returned instead. */
  method ValidateDirective(fields: seq<string>, expectedIP: string, parseIP: AddressParser, remoteSeen: bool)
    returns (ok: bool, seen: bool)
    requires fields != []
    ensures ok <==> Permitted(fields, expectedIP, parseIP)
    ensures seen <==> remoteSeen || (ok && fields[0] == "remote")
  {
    var name, args := fields[0], fields[1..];
    seen := remoteSeen;
    if name in {"client", "nobind", "persist-key", "persist-tun", "auth-nocache", "pull", "fast-io"} {
      return args == [], seen;
    }
    ok := true;
    if name == "dev" || name == "dev-type" {
      if |args| != 1 || args[0] != "tun" { return false, seen; }
    } else if name == "proto" {
      if |args| != 1 || args[0] !in PROTOCOLS { return false, seen; }
    } else if name == "remote" {
      if |args| < 2 || |args| > 3 || args[0] != expectedIP || !IsPublicIPv4(args[0], parseIP) { return false, seen; }
      var port := Atoi(args[1]);
      if port.None? || port.value < 1 || port.value > 65535 { return false, seen; }
      if |args| == 3 && args[2] !in PROTOCOLS { return false, seen; }
      seen := true;
    } else if name == "resolv-retry" {
      if |args| != 1 || (args[0] != "infinite" && !IsBoundedInt(args[0], 1, MAX_INT32)) { return false, seen; }
    } else if name == "remote-cert-tls" {
      if |args| != 1 || args[0] != "server" { return false, seen; }
    } else if name in {"cipher", "data-ciphers", "data-ciphers-fallback", "auth", "tls-cipher", "tls-ciphersuites"} {
      if |args| != 1 || !SafeToken(args[0]) { return false, seen; }
    } else if name == "comp-lzo" {
      if |args| > 1 || (|args| == 1 && args[0] !in {"yes", "no", "adaptive"}) { return false, seen; }
    } else if name == "compress" {
      if |args| != 1 || args[0] !in {"lz4", "lz4-v2", "stub", "stub-v2", "no"} { return false, seen; }
    } else if name == "key-direction" {
      if |args| != 1 || (args[0] != "0" && args[0] != "1") { return false, seen; }
    } else if name == "tls-version-min" {
      if |args| != 1 || (args[0] != "1.2" && args[0] != "1.3") { return false, seen; }
    } else if name == "verb" {
      if |args| != 1 || !IsBoundedInt(args[0], 0, 6) { return false, seen; }
    } else if name in {"reneg-sec", "connect-timeout", "connect-retry", "sndbuf", "rcvbuf", "explicit-exit-notify"} {
      if |args| != 1 || !IsBoundedInt(args[0], 1, MAX_INT32) { return false, seen; }
    } else {
      return false, seen;
    }
  }

  // ---------- grammar ----------

  datatype Item = Directive(fields: seq<string>) | Block(name: string, body: seq<string>)

  const BLOCK_NAMES: set<string> := {"ca", "cert", "key", "tls-auth", "tls-crypt"}

  function OpenTag(name: string): string { "<" + name + ">" }
  function CloseTag(name: string): string { "</" + name + ">" }

  predicate Ignorable(line: string) { line == "" || line[0] == '#' || line[0] == ';' }

  /** The name of the block a (trimmed) line opens, if it opens a permitted one. */
  function OpenedBlock(line: string): (name: Option<string>)
    ensures name.Some? <==> exists n :: n in BLOCK_NAMES && line == OpenTag(n)
    ensures name.Some? ==> name.value in BLOCK_NAMES && line == OpenTag(name.value)
  {
    if line == "<ca>" then Some("ca")
    else if line == "<cert>" then Some("cert")
    else if line == "<key>" then Some("key")
    else if line == "<tls-auth>" then Some("tls-auth")
    else if line == "<tls-crypt>" then Some("tls-crypt")
    else None
  }

  datatype Taken = Unclosed | Closed(body: seq<string>, rest: seq<string>)

  /** The non-blank lines up to the closing tag, and the lines after it. */
  function TakeBlock(name: string, lines: seq<string>): (t: Taken)
    ensures t.Closed? ==> |t.rest| < |lines|
  {
    if lines == [] then Unclosed
    else if TrimSpace(lines[0]) == CloseTag(name) then Closed([], lines[1..])
    else
      match TakeBlock(name, lines[1..])
      case Unclosed => Unclosed
      case Closed(body, rest) =>
        Closed(if TrimSpace(lines[0]) == "" then body else [lines[0]] + body, rest)
  }

  function Prepend(items: seq<Item>, rest: Option<seq<Item>>): Option<seq<Item>> {
    if rest.None? then None else Some(items + rest.value)
  }

  /** The items a list of lines spells, or None when a block is unknown, malformed or unclosed. */
  function ParseLines(lines: seq<string>): Option<seq<Item>>
    decreases |lines|
  {
    if lines == [] then Some([])
    else
      var line := TrimSpace(lines[0]);
      if Ignorable(line) then ParseLines(lines[1..])
      else if line[0] == '<' then
        match OpenedBlock(line)
        case None => None
        case Some(name) =>
          match TakeBlock(name, lines[1..])
          case Unclosed => None
          case Closed(body, rest) => Prepend([Block(name, body)], ParseLines(rest))
      else Prepend([Directive(Fields(line))], ParseLines(lines[1..]))
  }

  function PrintItem(item: Item): seq<string> {
    match item
    case Directive(fields) => [Join(fields, " ")]
    case Block(name, body) => [OpenTag(name)] + body + [CloseTag(name)]
  }

  function Print(items: seq<Item>): seq<string> {
    if items == [] then [] else PrintItem(items[0]) + Print(items[1..])
  }

  function Lines(profile: string): seq<string> { Split(ReplaceCRLF(profile), '\n') }

  const MAX_SIZE := 0x10_0000

  predicate Remote(item: Item) { item.Directive? && item.fields != [] && item.fields[0] == "remote" }

  predicate ItemPermitted(item: Item, ip: string, parseIP: AddressParser) {
    item.Directive? ==> Permitted(item.fields, ip, parseIP)
  }

  predicate AllPermitted(items: seq<Item>, ip: string, parseIP: AddressParser) {
    forall i :: 0 <= i < |items| ==> ItemPermitted(items[i], ip, parseIP)
  }

  predicate HasRemote(items: seq<Item>) { exists i :: 0 <= i < |items| && Remote(items[i]) }

  /** The profiles the validator is meant to accept. */
  predicate Accepts(profile: string, ip: string, parseIP: AddressParser) {
    && 0 < ByteSize(profile) <= MAX_SIZE
    && IsPublicIPv4(ip, parseIP)
    && var items := ParseLines(Lines(profile));
    && items.Some?
    && AllPermitted(items.value, ip, parseIP)
    && HasRemote(items.value)
  }

  /** What it hands on: the printed normal form. */
  function Normal(profile: string): string
    requires ParseLines(Lines(profile)).Some?
  {
    Unlines(Print(ParseLines(Lines(profile)).value))
  }

  // ---------- the loop of the source ----------

  datatype Pending = Outside | Inside(name: string, body: seq<string>)

  /** The items still to come when the loop has an open block, or none. */
  ghost function Remaining(pending: Pending, lines: seq<string>): Option<seq<Item>> {
    match pending
    case Outside => ParseLines(lines)
    case Inside(name, body) =>
      match TakeBlock(name, lines)
      case Unclosed => None
      case Closed(more, rest) => Prepend([Block(name, body + more)], ParseLines(rest))
  }

  /** The lines printed so far for an open block. */
  ghost function Opened(pending: Pending): seq<string> {
    if pending.Inside? then [OpenTag(pending.name)] + pending.body else []
  }

  lemma OpenedGrows(printed: seq<string>, name: string, body: seq<string>, line: string)
    ensures printed + Opened(Outside) == printed
    ensures printed + [OpenTag(name)] == printed + Opened(Inside(name, []))
    ensures printed + Opened(Inside(name, body)) + [line] == printed + Opened(Inside(name, body + [line]))
    ensures printed + Opened(Inside(name, body)) + [CloseTag(name)] == printed + PrintItem(Block(name, body))
  {
  }

  /** What appending one item does to the printing and to the two checks. */
  lemma AppendItem(items: seq<Item>, item: Item, ip: string, parseIP: AddressParser)
    ensures Print(items + [item]) == Print(items) + PrintItem(item)
    ensures AllPermitted(items + [item], ip, parseIP) <==> AllPermitted(items, ip, parseIP) && ItemPermitted(item, ip, parseIP)
    ensures HasRemote(items + [item]) <==> HasRemote(items) || Remote(item)
  {
    var more := items + [item];
    PrintAppend(items, item);
    assert more[|items|] == item;
    assert forall k :: 0 <= k < |items| ==> more[k] == items[k];
    if HasRemote(items) {
      var k :| 0 <= k < |items| && Remote(items[k]);
      assert Remote(more[k]);
    }
  }

  lemma {:induction false} PrintAppend(items: seq<Item>, item: Item)
    ensures Print(items + [item]) == Print(items) + PrintItem(item)
  {
    if items == [] {
      assert items + [item] == [item];
      assert Print([item]) == PrintItem(item) + Print([]);
    } else {
      var first, rest := items[0], items[1..];
      PrintAppend(rest, item);
      assert (items + [item])[1..] == rest + [item];
      assert Print(items + [item]) == PrintItem(first) + (Print(rest) + PrintItem(item));
    }
  }

  /** How an open block's first unread line changes what is still to come. */
  lemma RemainingInside(name: string, body: seq<string>, lines: seq<string>)
    requires lines != []
    ensures Remaining(Inside(name, body), lines) ==
            if TrimSpace(lines[0]) == CloseTag(name) then Prepend([Block(name, body)], ParseLines(lines[1..]))
            else if TrimSpace(lines[0]) == "" then Remaining(Inside(name, body), lines[1..])
            else Remaining(Inside(name, body + [lines[0]]), lines[1..])
  {
    assert body + [] == body;
    match TakeBlock(name, lines[1..])
    case Unclosed =>
    case Closed(more, rest) => assert body + ([lines[0]] + more) == (body + [lines[0]]) + more;
  }

  /** How the first unread line outside a block changes what is still to come. */
  lemma RemainingOutside(lines: seq<string>)
    requires lines != []
    ensures var line := TrimSpace(lines[0]);
            ParseLines(lines) ==
            if Ignorable(line) then ParseLines(lines[1..])
            else if line[0] != '<' then Prepend([Directive(Fields(line))], ParseLines(lines[1..]))
            else if OpenedBlock(line).Some? then Remaining(Inside(OpenedBlock(line).value, []), lines[1..])
            else None
  {
    var line := TrimSpace(lines[0]);
    if !Ignorable(line) && line[0] == '<' && OpenedBlock(line).Some? {
      match TakeBlock(OpenedBlock(line).value, lines[1..])
      case Unclosed =>
      case Closed(more, rest) => assert [] + more == more;
    }
  }

  lemma PrependNothing(rest: Option<seq<Item>>)
    ensures Prepend([], rest) == rest
  {
    if rest.Some? { assert [] + rest.value == rest.value; }
  }

  lemma PrependPrepend(items: seq<Item>, item: Item, rest: Option<seq<Item>>)
    ensures Prepend(items, Prepend([item], rest)) == Prepend(items + [item], rest)
  {
    if rest.Some? {
      assert items + ([item] + rest.value) == (items + [item]) + rest.value;
    }
  }

  /** TrimPrefix and TrimSuffix followed by the name switch accept exactly the opening tags. */
  lemma TagSwitch(line: string, name: string)
    requires line != "" && line[0] == '<'
    requires name == if line[|line| - 1] == '>' then line[1..|line| - 1] else line[1..]
    requires |line| >= 2
    ensures OpenedBlock(line) == if name in BLOCK_NAMES && line == OpenTag(name) then Some(name) else None
  {
    if OpenedBlock(line).Some? {
      var n := OpenedBlock(line).value;
      assert line == OpenTag(n) && line[1..|line| - 1] == n;
    }
  }

  /** The loop invariant: what was parsed, printed and checked, and what is still to come. */
  ghost predicate Progress(parsed: Option<seq<Item>>, items: seq<Item>, pending: Pending, unread: seq<string>,
                           out: seq<string>, remoteSeen: bool, ip: string, parseIP: AddressParser)
  {
    && parsed == Prepend(items, Remaining(pending, unread))
    && out == Print(items) + Opened(pending)
    && AllPermitted(items, ip, parseIP)
    && (remoteSeen <==> HasRemote(items))
  }

  lemma ProgressInside(parsed: Option<seq<Item>>, items: seq<Item>, name: string, body: seq<string>, unread: seq<string>,
                       out: seq<string>, remoteSeen: bool, ip: string, parseIP: AddressParser)
    requires unread != [] && Progress(parsed, items, Inside(name, body), unread, out, remoteSeen, ip, parseIP)
    ensures var line := TrimSpace(unread[0]);
            if line == CloseTag(name) then
              Progress(parsed, items + [Block(name, body)], Outside, unread[1..], out + [line], remoteSeen, ip, parseIP)
            else if line == "" then
              Progress(parsed, items, Inside(name, body), unread[1..], out, remoteSeen, ip, parseIP)
            else
              Progress(parsed, items, Inside(name, body + [unread[0]]), unread[1..], out + [unread[0]], remoteSeen, ip, parseIP)
  {
    var line, done := TrimSpace(unread[0]), Block(name, body);
    RemainingInside(name, body, unread);
    OpenedGrows(Print(items), name, body, unread[0]);
    if line == CloseTag(name) {
      AppendItem(items, done, ip, parseIP);
      PrependPrepend(items, done, ParseLines(unread[1..]));
      OpenedGrows(Print(items + [done]), "", [], "");
    }
  }

  lemma ProgressOutside(parsed: Option<seq<Item>>, items: seq<Item>, unread: seq<string>,
                        out: seq<string>, remoteSeen: bool, ip: string, parseIP: AddressParser)
    requires unread != [] && Progress(parsed, items, Outside, unread, out, remoteSeen, ip, parseIP)
    ensures var line := TrimSpace(unread[0]);
            if Ignorable(line) then
              Progress(parsed, items, Outside, unread[1..], out, remoteSeen, ip, parseIP)
            else if line[0] != '<' then
              var item := Directive(Fields(line));
              if ItemPermitted(item, ip, parseIP) then
                Progress(parsed, items + [item], Outside, unread[1..], out + [Join(item.fields, " ")],
                         remoteSeen || Remote(item), ip, parseIP)
              else
                parsed.Some? ==> !AllPermitted(parsed.value, ip, parseIP)
            else if OpenedBlock(line).Some? then
              Progress(parsed, items, Inside(OpenedBlock(line).value, []), unread[1..], out + [line], remoteSeen, ip, parseIP)
            else
              parsed.None?
  {
    var line, item := TrimSpace(unread[0]), Directive(Fields(TrimSpace(unread[0])));
    RemainingOutside(unread);
    if Ignorable(line) {
    } else if line[0] != '<' {
      PrependPrepend(items, item, ParseLines(unread[1..]));
      AppendItem(items, item, ip, parseIP);
      OpenedGrows(Print(items), "", [], "");
      OpenedGrows(Print(items + [item]), "", [], "");
      assert parsed.Some? ==> parsed.value[|items|] == item;
    } else if OpenedBlock(line).Some? {
      OpenedGrows(Print(items), OpenedBlock(line).value, [], line);
    }
  }

  lemma ProgressDone(parsed: Option<seq<Item>>, items: seq<Item>, pending: Pending,
                     out: seq<string>, remoteSeen: bool, ip: string, parseIP: AddressParser)
    requires Progress(parsed, items, pending, [], out, remoteSeen, ip, parseIP)
    ensures pending.Inside? ==> parsed.None?
    ensures pending.Outside? ==> parsed == Some(items) && out == Print(items)
    ensures pending.Outside? && remoteSeen ==> out != []
  {
    assert items + [] == items && Print(items) + [] == Print(items);
    if items != [] { PrintNonempty(items); }
  }

  datatype Result<+T> = Ok(value: T) | Err

  /** TrimPrefix, TrimSuffix and the name switch, for a line that starts with '<'. */
  method BlockName(line: string) returns (known: bool, name: string)
    requires line != "" && line[0] == '<'
    ensures known <==> OpenedBlock(line).Some?
    ensures known ==> name == OpenedBlock(line).value && name != ""
  {
    if |line| == 1 { return false, ""; }
    name := if line[|line| - 1] == '>' then line[1..|line| - 1] else line[1..];
    TagSwitch(line, name);
    known := name in BLOCK_NAMES && line == OpenTag(name);
  }

  method ValidateOpenVPNProfile(profile: string, expectedIP: string, parseIP: AddressParser)
    returns (r: Result<string>)
    ensures r.Ok? <==> Accepts(profile, expectedIP, parseIP)
    ensures r.Ok? ==> r.value == Normal(profile)
  {
    if ByteSize(profile) == 0 || ByteSize(profile) > MAX_SIZE { return Err; }
    if !IsPublicIPv4(expectedIP, parseIP) { return Err; }
    var lines := Lines(profile);
    var out: seq<string> := [];
    var block := "";
    var remoteSeen := false;
    ghost var parsed := ParseLines(lines);
    ghost var items: seq<Item> := [];
    ghost var pending := Outside;
    var i := 0;
    assert lines[0..] == lines;
    PrependNothing(parsed);
    while i < |lines|
      invariant 0 <= i <= |lines|
      invariant pending.Outside? <==> block == ""
      invariant pending.Inside? ==> pending.name == block && block in BLOCK_NAMES
      invariant Progress(parsed, items, pending, lines[i..], out, remoteSeen, expectedIP, parseIP)
    {
      var raw := lines[i];
      var line := TrimSpace(raw);
      assert lines[i..][0] == raw && lines[i..][1..] == lines[i + 1..];
      i := i + 1;
      if block != "" {
        ProgressInside(parsed, items, block, pending.body, lines[i - 1..], out, remoteSeen, expectedIP, parseIP);
        if line == CloseTag(block) {
          out := out + [line];
          items, pending := items + [Block(block, pending.body)], Outside;
          block := "";
          continue;
        }
        if line == "" { continue; }
        out := out + [raw];
        pending := Inside(block, pending.body + [raw]);
        continue;
      }
      ProgressOutside(parsed, items, lines[i - 1..], out, remoteSeen, expectedIP, parseIP);
      if line == "" || line[0] == '#' || line[0] == ';' { continue; }
      if line[0] == '<' {
        var known, name := BlockName(line);
        if !known { return Err; }
        block := name;
        pending := Inside(name, []);
        out := out + [line];
        continue;
      }
      var fields := Fields(line);
      TrimSpaceShape(raw);
      FieldsAreSolid(line);
      var ok, seen := ValidateDirective(fields, expectedIP, parseIP, remoteSeen);
      if !ok { return Err; }
      remoteSeen := seen;
      out := out + [Join(fields, " ")];
      items := items + [Directive(fields)];
    }
    assert lines[i..] == [];
    ProgressDone(parsed, items, pending, out, remoteSeen, expectedIP, parseIP);
    if block != "" || !remoteSeen { return Err; }
    UnlinesIsJoin(out);
    return Ok(Join(out, "\n") + "\n");
  }

  lemma PrintNonempty(items: seq<Item>)
    requires items != []
    ensures Print(items) != []
  {
  }
}
