/**
 What parseRemote returns for every accepted profile. Its expression knows nothing of blocks, so a
 line of an inline block can shadow the directives behind it; which lines do is decided by the
 block alone.
 */
module RemoteShadow {
  import opened Common
  import opened Text
  import opened Profile
  import opened ProfileRoundTrip
  import opened RemoteExpr

  // ---------- a match never depends on what follows the block ----------

  lemma {:induction false} RunConcat(p: char -> bool, a: string, b: string)
    ensures Run(p, a + b) == if Run(p, a) < |a| then Run(p, a) else |a| + Run(p, b)
  {
    if a == "" {
      assert a + b == b;
    } else {
      assert (a + b)[0] == a[0] && (a + b)[1..] == a[1..] + b;
      if p(a[0]) { RunConcat(p, a[1..], b); }
    }
  }

  /** Text that ends a line. */
  predicate Ends(a: string) { a != "" && a[|a| - 1] == '\n' }

  /** A closing tag on its line, and what may follow it. */
  predicate Fence(b: string) {
    && b != "" && b[0] == '<'
    && var n := Run(WORD, b);
    && n < |b| && b[n] == '\n'
    && (n + 1 < |b| ==> !ReSpace(b[n + 1]) && !IsDigit(b[n + 1]))
  }

  /** A run that stops inside a text that ends a line stops there whatever follows, and leaves such a text. */
  lemma RunInside(p: char -> bool, a: string, b: string)
    requires Run(p, a) < |a| && Ends(a)
    ensures var n := Run(p, a);
      Run(p, a + b) == n && (a + b)[..n] == a[..n] && (a + b)[n..] == a[n..] + b && Ends(a[n..]) && !p(a[n..][0])
  {
    RunConcat(p, a, b);
  }

  /** A run that takes the whole text goes on in the fence, which begins with '<'. */
  lemma RunThrough(p: char -> bool, a: string, b: string)
    requires Run(p, a) == |a| && Fence(b) && !p('<')
    ensures Run(p, a + b) == |a| && (a + b)[|a|..] == b
  {
    RunConcat(p, a, b);
  }

  lemma ShortPrefix(a: string, b: string, word: string)
    requires Ends(a) && '\n' !in word
    ensures HasPrefix(a + b, word) <==> HasPrefix(a, word)
  {
    if |word| <= |a| {
      assert (a + b)[..|word|] == a[..|word|];
    } else {
      assert |word| <= |a + b| ==> (a + b)[..|word|][|a| - 1] == '\n';
    }
  }

  lemma ProtoIsLocal(a: string, b: string)
    requires Ends(a) && Fence(b)
    ensures ProtoGroup(a + b) == ProtoGroup(a)
  {
    if Run(SPACES, a) < |a| {
      RunInside(SPACES, a, b);
      ShortPrefix(a[Run(SPACES, a)..], b, "udp");
      ShortPrefix(a[Run(SPACES, a)..], b, "tcp");
    } else {
      RunThrough(SPACES, a, b);
      assert !HasPrefix(b, "udp") && !HasPrefix(b, "tcp") by { assert |b| >= 3 ==> b[..3][0] == '<'; }
    }
  }

  lemma PortIsLocal(host: string, a: string, b: string)
    requires Ends(a) && Fence(b)
    ensures MatchPort(host, a + b) == MatchPort(host, a)
  {
    if Run(SPACES, a) < |a| {
      RunInside(SPACES, a, b);
      var d := a[Run(SPACES, a)..];
      assert Run(DIGITS, d) < |d|;
      RunInside(DIGITS, d, b);
      ProtoIsLocal(d[Run(DIGITS, d)..], b);
    } else {
      RunThrough(SPACES, a, b);
      assert Run(DIGITS, b) == 0;
    }
  }

  /** In front of a fence nothing is a port. */
  lemma FenceIsNoPort(host: string, b: string)
    requires Fence(b)
    ensures MatchPort(host, b[Run(WORD, b)..]).None?
  {
    var t := b[Run(WORD, b)..];
    assert t[0] == '\n';
    if |t| > 1 {
      assert t[1] == b[Run(WORD, b) + 1];
      OneRun(SPACES, "\n", t[1..]);
      assert t == "\n" + t[1..];
      assert Run(DIGITS, t[1..]) == 0;
    } else {
      assert t == "\n";
    }
  }

  lemma HostIsLocal(a: string, b: string)
    requires Ends(a) && Fence(b)
    ensures MatchHost(a + b) == MatchHost(a)
  {
    if Run(SPACES, a) < |a| {
      RunInside(SPACES, a, b);
      var h := a[Run(SPACES, a)..];
      assert Run(WORD, h) < |h|;
      RunInside(WORD, h, b);
      PortIsLocal(h[..Run(WORD, h)], h[Run(WORD, h)..], b);
    } else {
      RunThrough(SPACES, a, b);
      FenceIsNoPort(b[..Run(WORD, b)], b);
    }
  }

  lemma MatchIsLocal(a: string, b: string)
    requires Ends(a) && Fence(b)
    ensures MatchAt(a + b) == MatchAt(a)
  {
    ShortPrefix(a, b, "remote");
    assert |a| == 6 ==> a[..6][5] == '\n';
    if HasPrefix(a, "remote") {
      assert |a| > 6;
      assert (a + b)[6..] == a[6..] + b && a[6..][|a| - 7] == '\n';
      HostIsLocal(a[6..], b);
    }
  }

  // ---------- what a block contributes ----------

  /** The first line of a block at which the expression matches, inside the block. */
  function BodyMatch(body: seq<string>): Option<Match> {
    if body == [] then None
    else if MatchAt(Unlines(body)).Some? then MatchAt(Unlines(body))
    else BodyMatch(body[1..])
  }

  /** Only a line that starts with "remote" can begin a match. */
  lemma {:induction false} OtherLinesAreHarmless(body: seq<string>)
    requires forall l :: l in body ==> '\n' !in l && !HasPrefix(l, "remote")
    ensures BodyMatch(body).None?
  {
    if body != [] {
      assert body[0] in body;
      NotRemotePrefix(body[0], Unlines(body[1..]));
      OtherLinesAreHarmless(body[1..]);
    }
  }

  lemma TagIsWord(name: string)
    requires name in BLOCK_NAMES
    ensures CloseTag(name) != "" && CloseTag(name)[0] == '<' && NoReSpace(CloseTag(name))
    ensures !HasPrefix(OpenTag(name), "remote") && !HasPrefix(CloseTag(name), "remote")
  {
    TagIsPlain(name);
    assert OpenTag(name)[0] == '<' && CloseTag(name)[0] == '<';
    assert name == "ca" || name == "cert" || name == "key" || name == "tls-auth" || name == "tls-crypt";
  }

  lemma CloseTagIsFence(name: string, rest: string)
    requires name in BLOCK_NAMES && (rest == "" || (!ReSpace(rest[0]) && !IsDigit(rest[0])))
    ensures Fence(CloseTag(name) + "\n" + rest)
  {
    var tag := CloseTag(name);
    TagIsWord(name);
    assert tag + "\n" + rest == tag + ("\n" + rest);
    OneRun(WORD, tag, "\n" + rest);
  }

  lemma UnlinesEnds(lines: seq<string>)
    requires lines != []
    ensures Ends(Unlines(lines))
  {
    if |lines| > 1 { UnlinesEnds(lines[1..]); }
  }

  /** Inside a block the expression finds the block's own match, or goes on behind it. */
  lemma {:induction false} FirstMatchOfBody(body: seq<string>, fence: string)
    requires (forall l :: l in body ==> '\n' !in l) && Fence(fence)
    ensures FirstMatch(REMOTE_RE, Unlines(body) + fence, true) ==
            if BodyMatch(body).Some? then BodyMatch(body) else FirstMatch(REMOTE_RE, fence, true)
  {
    if body == [] {
      assert Unlines(body) + fence == fence;
    } else {
      var line, rest := body[0], Unlines(body[1..]) + fence;
      assert line in body && Unlines(body) + fence == line + "\n" + rest;
      UnlinesEnds(body);
      MatchIsLocal(Unlines(body), fence);
      FirstMatchOfLine(REMOTE_RE, line, rest);
      FirstMatchOfBody(body[1..], fence);
    }
  }

  lemma FirstMatchOfBlock(name: string, body: seq<string>, rest: string)
    requires WellFormed(Block(name, body)) && (rest == "" || (!ReSpace(rest[0]) && !IsDigit(rest[0])))
    ensures FirstMatch(REMOTE_RE, Unlines(PrintItem(Block(name, body))) + rest, true) ==
            if BodyMatch(body).Some? then BodyMatch(body) else FirstMatch(REMOTE_RE, rest, true)
  {
    var open, close := OpenTag(name), CloseTag(name);
    var fence := close + "\n" + rest;
    TagIsPlain(name);
    TagIsWord(name);
    BlockText(name, body, rest);
    NotRemotePrefix(open, Unlines(body) + fence);
    FirstMatchOfLine(REMOTE_RE, open, Unlines(body) + fence);
    forall l | l in body ensures '\n' !in l { assert BodyLine(name, l); }
    CloseTagIsFence(name, rest);
    FirstMatchOfBody(body, fence);
    NotRemotePrefix(close, rest);
    FirstMatchOfLine(REMOTE_RE, close, rest);
  }

  lemma BlockText(name: string, body: seq<string>, rest: string)
    ensures Unlines(PrintItem(Block(name, body))) + rest ==
            OpenTag(name) + "\n" + (Unlines(body) + (CloseTag(name) + "\n" + rest))
  {
    FencedText(OpenTag(name), body, CloseTag(name), rest);
    assert [OpenTag(name)] + body + [CloseTag(name)] == [OpenTag(name)] + (body + [CloseTag(name)]);
  }

  lemma FencedText(open: string, body: seq<string>, close: string, rest: string)
    ensures Unlines([open] + (body + [close])) + rest == open + "\n" + (Unlines(body) + (close + "\n" + rest))
  {
    FirstLine(open, body + [close]);
    UnlinesConcat(body, [close]);
    assert Unlines([close]) == close + "\n";
    Reassociate(open + "\n", Unlines(body) + (close + "\n"), rest);
    Reassociate(Unlines(body), close + "\n", rest);
  }

  // ---------- the endpoint of a profile ----------

  /** The endpoint of the first plain remote or matching block line, in the order of the text. */
  function FirstEndpoint(items: seq<Item>): Option<Endpoint> {
    if items == [] then None
    else if PlainRemote(items[0]) then Some(EndpointOf(items[0]))
    else if items[0].Block? && BodyMatch(items[0].body).Some? then Some(ToEndpoint(BodyMatch(items[0].body).value))
    else FirstEndpoint(items[1..])
  }

  /** The first match of a block in front of every plain remote. */
  function FirstShadow(items: seq<Item>): Option<Match> {
    if items == [] || PlainRemote(items[0]) then None
    else if items[0].Block? && BodyMatch(items[0].body).Some? then BodyMatch(items[0].body)
    else FirstShadow(items[1..])
  }

  lemma {:induction false} ShadowOrPlain(items: seq<Item>)
    ensures FirstEndpoint(items) ==
            if FirstShadow(items).Some? then Some(ToEndpoint(FirstShadow(items).value)) else FirstPlainRemote(items)
  {
    if items != [] { ShadowOrPlain(items[1..]); }
  }

  lemma PrintedTailStart(items: seq<Item>, ip: string, parseIP: AddressParser)
    requires AllWellFormed(items) && AllPermitted(items, ip, parseIP)
    ensures var text := Unlines(Print(items)); text == "" || (!ReSpace(text[0]) && !IsDigit(text[0]))
  {
    if items != [] {
      assert items[0] in items && ItemPermitted(items[0], ip, parseIP);
      PrintedItemStart(items[0], ip, parseIP);
      var line, text := PrintedStart(items);
      NoDigitStart(items[0], ip, parseIP);
    }
  }

  lemma NoDigitStart(item: Item, ip: string, parseIP: AddressParser)
    requires WellFormed(item) && ItemPermitted(item, ip, parseIP)
    ensures PrintItem(item)[0] != "" && !IsDigit(PrintItem(item)[0][0])
  {
    if item.Directive? {
      FirstFieldStartsLine(item.fields);
      NameIsNoNumber(item.fields[0]);
      var line, name := PrintItem(item)[0], item.fields[0];
      assert line[0] == line[..|name|][0];
    }
  }

  lemma NameIsNoNumber(name: string)
    requires ShapeOf(name).Some?
    ensures name != "" && !IsDigit(name[0])
  {
  }

  /** On printed items the expression finds exactly that endpoint. */
  lemma {:induction false} FirstMatchOfPrinted(items: seq<Item>, ip: string, parseIP: AddressParser)
    requires AllWellFormed(items) && AllPermitted(items, ip, parseIP)
    ensures MatchedEndpoint(FirstMatch(REMOTE_RE, Unlines(Print(items)), true)) == FirstEndpoint(items)
  {
    if items == [] {
      assert MatchAt("").None?;
    } else {
      var item, rest := items[0], Unlines(Print(items[1..]));
      assert item in items && AllWellFormed(items[1..]) && ItemPermitted(item, ip, parseIP);
      assert AllPermitted(items[1..], ip, parseIP);
      FirstMatchOfPrinted(items[1..], ip, parseIP);
      UnlinesConcat(PrintItem(item), Print(items[1..]));
      match item {
        case Directive(fields) =>
          PrintedTailIsClean(items[1..], ip, parseIP);
          PrintedDirectiveLine(fields);
          FirstMatchOfLine(REMOTE_RE, Join(fields, " "), rest);
          MatchOfDirective(fields, ip, parseIP, rest);
          assert Unlines(PrintItem(item)) + rest == Join(fields, " ") + "\n" + rest;
        case Block(name, body) =>
          PrintedTailStart(items[1..], ip, parseIP);
          FirstMatchOfBlock(name, body, rest);
      }
    }
  }

  function Fallback(host: string): Endpoint { Endpoint(host, 1194, "udp") }

  function OrElse(found: Option<Endpoint>, host: string): Endpoint {
    if found.Some? then found.value else Fallback(host)
  }

  /**
   For every accepted profile parseRemote returns, from the text handed on, the endpoint of the first
   plain remote or matching block line, and the fallback exactly when there is neither.
   */
  lemma {:induction false} ParseRemoteOfNormal(profile: string, ip: string, parseIP: AddressParser, fallback: string)
    requires Accepts(profile, ip, parseIP)
    ensures ParseRemote(Normal(profile), fallback) == OrElse(FirstEndpoint(ParseLines(Lines(profile)).value), fallback)
  {
    var items := ParseLines(Lines(profile)).value;
    ItemsOf(profile);
    FirstMatchOfPrinted(items, ip, parseIP);
  }

  /**
   So it returns the endpoint of the first remote with a decimal port, or the fallback without one,
   exactly if no block in front of it matches, or the block that does happens to spell the same
   endpoint. Unshadowed, the host is the expected address and the port is in range.
   */
  lemma {:induction false} FirstRemoteUnlessShadowed(profile: string, ip: string, parseIP: AddressParser, fallback: string)
    requires Accepts(profile, ip, parseIP)
    ensures var items := ParseLines(Lines(profile)).value;
      var wanted := OrElse(FirstPlainRemote(items), fallback);
      && (ParseRemote(Normal(profile), fallback) == wanted <==>
            FirstShadow(items).None? || ToEndpoint(FirstShadow(items).value) == wanted)
      && (FirstPlainRemote(items).Some? ==> FirstPlainRemote(items).value.host == ip && 1 <= FirstPlainRemote(items).value.port <= 65535)
  {
    var items := ParseLines(Lines(profile)).value;
    ItemsOf(profile);
    ParseRemoteOfNormal(profile, ip, parseIP, fallback);
    ShadowOrPlain(items);
    if FirstPlainRemote(items).Some? { PlainRemoteIsPermitted(items, ip, parseIP); }
  }

  /** No line inside a block starts with "remote". */
  predicate NoRemoteInBlocks(items: seq<Item>) {
    forall item, l :: item in items && item.Block? && l in item.body ==> !HasPrefix(l, "remote")
  }

  lemma {:induction false} NoShadow(items: seq<Item>)
    requires AllWellFormed(items) && NoRemoteInBlocks(items)
    ensures FirstShadow(items).None?
  {
    if items != [] {
      var item := items[0];
      assert item in items;
      if item.Block? { OtherLinesAreHarmless(item.body); }
      NoShadow(items[1..]);
    }
  }

  /** So on a profile whose blocks have no line starting with "remote" the first plain remote is returned, or the fallback. */
  lemma {:induction false} UnshadowedByLook(profile: string, ip: string, parseIP: AddressParser, fallback: string)
    requires Accepts(profile, ip, parseIP) && NoRemoteInBlocks(ParseLines(Lines(profile)).value)
    ensures ParseRemote(Normal(profile), fallback) == OrElse(FirstPlainRemote(ParseLines(Lines(profile)).value), fallback)
  {
    ItemsOf(profile);
    NoShadow(ParseLines(Lines(profile)).value);
    FirstRemoteUnlessShadowed(profile, ip, parseIP, fallback);
  }

  /** A matching block line in front of every plain remote wins, in whatever block and position it stands. */
  lemma {:induction false} ShadowWins(profile: string, ip: string, parseIP: AddressParser, fallback: string)
    requires Accepts(profile, ip, parseIP) && FirstShadow(ParseLines(Lines(profile)).value).Some?
    ensures ParseRemote(Normal(profile), fallback) == ToEndpoint(FirstShadow(ParseLines(Lines(profile)).value).value)
  {
    ParseRemoteOfNormal(profile, ip, parseIP, fallback);
    ShadowOrPlain(ParseLines(Lines(profile)).value);
  }

  lemma {:induction false} PlainRemoteIsPermitted(items: seq<Item>, ip: string, parseIP: AddressParser)
    requires AllPermitted(items, ip, parseIP) && FirstPlainRemote(items).Some?
    ensures FirstPlainRemote(items).value.host == ip && 1 <= FirstPlainRemote(items).value.port <= 65535
  {
    if PlainRemote(items[0]) {
      assert ItemPermitted(items[0], ip, parseIP);
      assert items[0].fields[1..][0] == items[0].fields[1] && items[0].fields[1..][1] == items[0].fields[2];
    } else {
      PlainRemoteIsPermitted(items[1..], ip, parseIP);
    }
  }

  /**
   With every remote port written in digits the fallback is never used; and unless a block in front
   shadows it, the first remote directive of the profile is the one returned.
   */
  lemma {:induction false} DigitPortsNeverFallBack(profile: string, ip: string, parseIP: AddressParser, fallback: string)
    requires Accepts(profile, ip, parseIP)
    requires forall item :: item in ParseLines(Lines(profile)).value && Remote(item) ==> PlainRemote(item)
    ensures FirstEndpoint(ParseLines(Lines(profile)).value).Some?
    ensures FirstShadow(ParseLines(Lines(profile)).value).None? ==>
      exists i :: var items := ParseLines(Lines(profile)).value;
        && 0 <= i < |items| && Remote(items[i]) && (forall j :: 0 <= j < i ==> !Remote(items[j]))
        && ParseRemote(Normal(profile), fallback) == EndpointOf(items[i])
  {
    var items := ParseLines(Lines(profile)).value;
    ParseRemoteOfNormal(profile, ip, parseIP, fallback);
    ShadowOrPlain(items);
    var i := FirstRemoteIndex(items);
  }

  lemma {:induction false} FirstRemoteIndex(items: seq<Item>) returns (i: nat)
    requires HasRemote(items) && forall item :: item in items && Remote(item) ==> PlainRemote(item)
    ensures i < |items| && Remote(items[i]) && (forall j :: 0 <= j < i ==> !Remote(items[j]))
    ensures FirstPlainRemote(items) == Some(EndpointOf(items[i]))
  {
    assert items[0] in items;
    if Remote(items[0]) {
      i := 0;
    } else {
      var k :| 0 <= k < |items| && Remote(items[k]);
      assert items[1..][k - 1] == items[k];
      var n := FirstRemoteIndex(items[1..]);
      i := n + 1;
      assert items[i] == items[1..][n];
      forall j | 0 <= j < i ensures !Remote(items[j]) { if j > 0 { assert items[1..][j - 1] == items[j]; } }
    }
  }

  // ---------- any host and port can be put in front ----------

  function ShadowItems(host: string, port: string, fields: seq<string>): seq<Item> {
    [Block("ca", [RemoteText(host, port, "")]), Directive(fields)]
  }

  lemma ShadowIsBodyLine(host: string, port: string)
    requires Solid(host) && AllDigits(port)
    ensures BodyLine("ca", RemoteText(host, port, ""))
  {
    var line, tail := RemoteText(host, port, ""), " " + (host + (" " + port));
    assert port + "" == port;
    assert line == "remote" + tail;
    assert line[0] == 'r' && line[|line| - 1] == port[|port| - 1] && IsDigit(port[|port| - 1]);
    TrimSpaceShape(line);
    assert CloseTag("ca")[0] == '<';
    assert '\n' !in line by {
      assert IsSpace('\n') && '\n' !in "remote" && '\n' !in host && '\n' !in port;
    }
  }

  lemma ShadowIsAccepted(host: string, port: string, fields: seq<string>, ip: string, parseIP: AddressParser)
    requires Solid(host) && AllDigits(port)
    requires WellFormed(Directive(fields)) && Remote(Directive(fields)) && Permitted(fields, ip, parseIP)
    requires var text := Unlines(Print(ShadowItems(host, port, fields))); ByteSize(text) <= MAX_SIZE && !HasCRLF(text)
    ensures var text := Unlines(Print(ShadowItems(host, port, fields)));
            Accepts(text, ip, parseIP) && Normal(text) == text
  {
    var items := ShadowItems(host, port, fields);
    ShadowIsBodyLine(host, port);
    assert AllWellFormed(items);
    assert Remote(items[1]) && AllPermitted(items, ip, parseIP);
    assert fields[1..][0] == ip;
    PrintedIsAccepted(items, ip, parseIP);
  }

  /**
   The expression does not know about blocks. Put any "remote host port" line inside an inline
   certificate and it shadows the directive, so a host the validator never compared with the node
   address is returned.
   */
  lemma {:induction false} BlockLineShadowsDirective(host: string, port: string, fields: seq<string>, ip: string, parseIP: AddressParser)
    requires Solid(host) && AllDigits(port)
    requires WellFormed(Directive(fields)) && Remote(Directive(fields)) && Permitted(fields, ip, parseIP)
    requires var text := Unlines(Print(ShadowItems(host, port, fields))); ByteSize(text) <= MAX_SIZE && !HasCRLF(text)
    ensures var text := Unlines(Print(ShadowItems(host, port, fields)));
            && Accepts(text, ip, parseIP)
            && ParseRemote(Normal(text), ip) ==
               Endpoint(host, if Atoi(port).Some? then Atoi(port).value else MAX_INT, "udp")
  {
    ShadowIsAccepted(host, port, fields, ip, parseIP);
    ShadowIsParsed(host, port, fields);
    ShadowBodyMatches(host, port);
    ShadowInFront("ca", [RemoteText(host, port, "")], [Directive(fields)]);
    assert ShadowItems(host, port, fields) == [Block("ca", [RemoteText(host, port, "")])] + [Directive(fields)];
    ShadowWins(Unlines(Print(ShadowItems(host, port, fields))), ip, parseIP, ip);
  }

  lemma ShadowIsParsed(host: string, port: string, fields: seq<string>)
    requires Solid(host) && AllDigits(port) && WellFormed(Directive(fields))
    requires !HasCRLF(Unlines(Print(ShadowItems(host, port, fields))))
    ensures ParseLines(Lines(Unlines(Print(ShadowItems(host, port, fields))))) == Some(ShadowItems(host, port, fields))
  {
    ShadowIsBodyLine(host, port);
    PrintParseInverse(ShadowItems(host, port, fields));
  }

  lemma ShadowInFront(name: string, body: seq<string>, rest: seq<Item>)
    requires BodyMatch(body).Some?
    ensures FirstShadow([Block(name, body)] + rest) == BodyMatch(body)
  {
  }

  lemma MatchOfLine(host: string, port: string)
    requires Solid(host) && AllDigits(port)
    ensures MatchAt(RemoteText(host, port, "\n")) == Some(Match(host, port, ""))
  {
    assert NoReSpace(port) by { assert forall i :: 0 <= i < |port| ==> IsDigit(port[i]); }
    SolidHasNoReSpace(host);
    MatchOfRemote(host, port, "\n");
    ProtoOfNewline("");
    assert "\n" + "" == "\n";
  }

  lemma BodyOfOneLine(line: string)
    requires MatchAt(line + "\n").Some?
    ensures BodyMatch([line]) == MatchAt(line + "\n")
  {
    assert Unlines([line]) == line + "\n";
  }

  lemma ShadowBodyMatches(host: string, port: string)
    requires Solid(host) && AllDigits(port)
    ensures BodyMatch([RemoteText(host, port, "")]) == Some(Match(host, port, ""))
  {
    MatchOfLine(host, port);
    RemoteTextAppend(host, port, "\n");
    BodyOfOneLine(RemoteText(host, port, ""));
  }

  lemma RemoteTextAppend(host: string, port: string, after: string)
    ensures RemoteText(host, port, "") + after == RemoteText(host, port, after)
  {
    assert port + "" == port;
    Reassociate("remote", " " + (host + (" " + port)), after);
    Reassociate(" ", host + (" " + port), after);
    Reassociate(host, " " + port, after);
    Reassociate(" ", port, after);
  }
}
