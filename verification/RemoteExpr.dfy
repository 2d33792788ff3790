/**
 The regular expression with which parseRemote reads the endpoint back out of the validated text,
 and what it makes of one printed line.
 */
module RemoteExpr {
  import opened Common
  import opened Text
  import opened Profile
  import opened ProfileRoundTrip

  /** The class \s of the regular-expression engine. */
  predicate ReSpace(c: char) { c in "\t\n\U{000C}\r " }

  /** The length of the longest prefix whose characters all satisfy p. */
  function Run(p: char -> bool, s: string): (n: nat)
    ensures n <= |s| && forall i :: 0 <= i < n ==> p(s[i])
    ensures n < |s| ==> !p(s[n])
  {
    if s == "" || !p(s[0]) then 0 else 1 + Run(p, s[1..])
  }

  lemma {:induction false} RunOfPrefix(p: char -> bool, word: string, rest: string)
    requires forall i :: 0 <= i < |word| ==> p(word[i])
    requires rest == "" || !p(rest[0])
    ensures Run(p, word + rest) == |word|
  {
    if word == "" {
      assert word + rest == rest;
    } else {
      assert (word + rest)[1..] == word[1..] + rest;
      RunOfPrefix(p, word[1..], rest);
    }
  }

  datatype Match = Match(host: string, port: string, proto: string)

  const SPACES := (c: char) => ReSpace(c)
  const WORD := (c: char) => !ReSpace(c)
  const DIGITS := (c: char) => IsDigit(c)

  /** The optional last group: white space, then "udp" or "tcp". */
  function ProtoGroup(s: string): string {
    var rest := s[Run(SPACES, s)..];
    if rest == s then ""
    else if HasPrefix(rest, "udp") then "udp"
    else if HasPrefix(rest, "tcp") then "tcp"
    else ""
  }

  /** White space, then the port and what may follow it. */
  function MatchPort(host: string, t: string): Option<Match> {
    var n := Run(SPACES, t);
    var d := t[n..];
    var k := Run(DIGITS, d);
    if n == 0 || k == 0 then None else Some(Match(host, d[..k], ProtoGroup(d[k..])))
  }

  /** White space, then the host. */
  function MatchHost(t: string): Option<Match> {
    var n := Run(SPACES, t);
    var h := t[n..];
    var k := Run(WORD, h);
    if n == 0 || k == 0 then None else MatchPort(h[..k], h[k..])
  }

  /**
   remote\s+(\S+)\s+(\d+)(?:\s+(udp|tcp))? anchored at the start of s. Every repetition is
   greedy and is followed by a class it cannot share a character with, so maximal runs decide.
   */
  function MatchAt(s: string): Option<Match> {
    if HasPrefix(s, "remote") then MatchHost(s[6..]) else None
  }

  // ---------- the expression as a shape of text ----------

  predicate Gap(s: string) { s != "" && forall i :: 0 <= i < |s| ==> s[i] in "\t\n\U{000C}\r " }

  predicate HostText(s: string) { s != "" && forall i :: 0 <= i < |s| ==> s[i] !in "\t\n\U{000C}\r " }

  predicate PortText(s: string) { s != "" && forall i :: 0 <= i < |s| ==> '0' <= s[i] <= '9' }

  /** remote, white space, host, white space, port, and what follows the longest such port. */
  predicate Spelled(s: string, gap: string, host: string, space: string, port: string, rest: string) {
    && s == "remote" + (gap + (host + (space + (port + rest))))
    && Gap(gap) && HostText(host) && Gap(space) && PortText(port)
    && (rest == "" || rest[0] < '0' || '9' < rest[0])
  }

  /** White space and the protocol come next. */
  predicate Follows(rest: string, space: string, proto: string, more: string) {
    rest == space + (proto + more) && Gap(space)
  }

  lemma RunSplits(p: char -> bool, word: string, rest: string)
    requires forall i :: 0 <= i < |word| ==> p(word[i])
    requires rest == "" || !p(rest[0])
    ensures Run(p, word + rest) == |word| && (word + rest)[..|word|] == word && (word + rest)[|word|..] == rest
  {
    RunOfPrefix(p, word, rest);
  }

  /** Text of that shape matches, with that host and port and the protocol that follows. */
  lemma SpelledMatches(s: string, gap: string, host: string, space: string, port: string, rest: string)
    requires Spelled(s, gap, host, space, port, rest)
    ensures MatchAt(s) == Some(Match(host, port, ProtoGroup(rest)))
  {
    var d := port + rest;
    var t := space + d;
    var h := host + t;
    RunSplits(DIGITS, port, rest);
    assert d[0] == port[0] && t[0] == space[0] && h[0] == host[0];
    RunSplits(SPACES, space, d);
    RunSplits(WORD, host, t);
    RunSplits(SPACES, gap, h);
    assert s[..6] == "remote" && s[6..] == gap + h;
  }

  lemma CutAt(s: string, n: nat)
    requires n <= |s|
    ensures s == s[..n] + s[n..]
  {
  }

  lemma SpacesAreGap(s: string)
    ensures Run(SPACES, s) > 0 ==> Gap(s[..Run(SPACES, s)])
  {
  }

  lemma WordIsHost(s: string)
    ensures Run(WORD, s) > 0 ==> HostText(s[..Run(WORD, s)])
  {
  }

  lemma DigitsArePort(s: string)
    ensures var k := Run(DIGITS, s);
      (k > 0 ==> PortText(s[..k])) && (s[k..] == "" || s[k..][0] < '0' || '9' < s[k..][0])
  {
  }

  lemma PortIsSpelled(host: string, t: string) returns (space: string, rest: string)
    requires MatchPort(host, t).Some?
    ensures var m := MatchPort(host, t).value;
      && t == space + (m.port + rest) && Gap(space) && PortText(m.port) && m.host == host && m.proto == ProtoGroup(rest)
      && (rest == "" || rest[0] < '0' || '9' < rest[0])
  {
    var n := Run(SPACES, t);
    var d := t[n..];
    var k := Run(DIGITS, d);
    space, rest := t[..n], d[k..];
    CutAt(t, n);
    CutAt(d, k);
    SpacesAreGap(t);
    DigitsArePort(d);
  }

  lemma HostStands(all: string) returns (gap: string, host: string, t: string)
    requires MatchHost(all).Some?
    ensures all == gap + (host + t) && Gap(gap) && HostText(host) && MatchHost(all) == MatchPort(host, t)
  {
    var n := Run(SPACES, all);
    var h := all[n..];
    var k := Run(WORD, h);
    gap, host, t := all[..n], h[..k], h[k..];
    CutAt(all, n);
    CutAt(h, k);
    SpacesAreGap(all);
    WordIsHost(h);
  }

  lemma RemoteStands(s: string) returns (all: string)
    requires MatchAt(s).Some?
    ensures s == "remote" + all && MatchAt(s) == MatchHost(all)
  {
    all := s[6..];
    CutAt(s, 6);
  }

  /** And whatever matches is of that shape. */
  lemma MatchIsSpelled(s: string) returns (gap: string, space: string, rest: string)
    requires MatchAt(s).Some?
    ensures Spelled(s, gap, MatchAt(s).value.host, space, MatchAt(s).value.port, rest)
    ensures MatchAt(s).value.proto == ProtoGroup(rest)
  {
    var all := RemoteStands(s);
    var host, t;
    gap, host, t := HostStands(all);
    space, rest := PortIsSpelled(host, t);
  }

  /** The protocol is the one that follows, if one of the two does. */
  lemma ProtoMeansFollows(rest: string, proto: string)
    requires proto == "udp" || proto == "tcp"
    ensures ProtoGroup(rest) == proto <==> exists space, more :: Follows(rest, space, proto, more)
    ensures ProtoGroup(rest) == "" || ProtoGroup(rest) == "udp" || ProtoGroup(rest) == "tcp"
  {
    if ProtoGroup(rest) == proto { var space, more := ProtoIsSpelled(rest); }
    if space, more :| Follows(rest, space, proto, more) { ProtoFollows(rest, space, proto, more); }
  }

  lemma ProtoIsSpelled(rest: string) returns (space: string, more: string)
    requires ProtoGroup(rest) != ""
    ensures Follows(rest, space, ProtoGroup(rest), more)
  {
    var n := Run(SPACES, rest);
    var tail := rest[n..];
    space, more := rest[..n], tail[3..];
    assert tail == tail[..3] + more && rest == space + tail;
    assert n == 0 ==> tail == rest;
  }

  lemma ProtoFollows(rest: string, space: string, proto: string, more: string)
    requires Follows(rest, space, proto, more) && (proto == "udp" || proto == "tcp")
    ensures ProtoGroup(rest) == proto
  {
    var tail := proto + more;
    assert tail[0] == proto[0] && tail[..3] == proto;
    RunSplits(SPACES, space, tail);
  }

  /** An expression anchored at the start of a line, as a matcher of the text that follows. */
  type Matcher = string -> Option<Match>

  const REMOTE_RE: Matcher := (s: string) => MatchAt(s)

  /** The leftmost match at the start of a line. */
  function FirstMatch(re: Matcher, s: string, lineStart: bool): Option<Match>
    decreases |s|
  {
    if lineStart && re(s).Some? then re(s)
    else if s == "" then None
    else FirstMatch(re, s[1..], s[0] == '\n')
  }

  predicate LineStart(s: string, i: int, first: bool) { 0 <= i <= |s| && if i == 0 then first else s[i - 1] == '\n' }

  /** It is the match at the first line start that has one, and there is none exactly if no line start has one. */
  lemma {:induction false} LeftmostMatch(re: Matcher, s: string, first: bool)
    ensures FirstMatch(re, s, first).None? <==> forall i :: LineStart(s, i, first) ==> re(s[i..]).None?
    ensures FirstMatch(re, s, first).Some? ==>
      exists i :: LineStart(s, i, first) && re(s[i..]) == FirstMatch(re, s, first) &&
        forall j :: 0 <= j < i && LineStart(s, j, first) ==> re(s[j..]).None?
    decreases |s|
  {
    assert s[0..] == s;
    if first && re(s).Some? {
      assert LineStart(s, 0, first);
    } else if s != "" {
      var t, next := s[1..], s[0] == '\n';
      LeftmostMatch(re, t, next);
      assert forall i :: 0 <= i <= |t| ==> t[i..] == s[i + 1..] && (LineStart(t, i, next) <==> LineStart(s, i + 1, first));
      if FirstMatch(re, t, next).Some? {
        var i :| LineStart(t, i, next) && re(t[i..]) == FirstMatch(re, t, next) &&
          forall j :: 0 <= j < i && LineStart(t, j, next) ==> re(t[j..]).None?;
        forall j | 0 <= j < i + 1 && LineStart(s, j, first) ensures re(s[j..]).None? {
          if j > 0 { assert LineStart(t, j - 1, next) && t[j - 1..] == s[j..]; }
        }
        assert LineStart(s, i + 1, first) && t[i..] == s[i + 1..];
      } else {
        forall i | LineStart(s, i, first) ensures re(s[i..]).None? {
          if i > 0 { assert LineStart(t, i - 1, next) && t[i - 1..] == s[i..]; }
        }
      }
    }
  }

  datatype Endpoint = Endpoint(host: string, port: int, proto: string)

  function ParseRemote(cfg: string, fallbackHost: string): Endpoint {
    match FirstMatch(REMOTE_RE, cfg, true)
    case None => Endpoint(fallbackHost, 1194, "udp")
    case Some(m) =>
      Endpoint(m.host, if Atoi(m.port).Some? then Atoi(m.port).value else MAX_INT, if m.proto == "" then "udp" else m.proto)
  }

  // ---------- the endpoint the items name ----------

  predicate PlainRemote(item: Item) { Remote(item) && |item.fields| >= 3 && AllDigits(item.fields[2]) }

  function EndpointOf(item: Item): Endpoint
    requires PlainRemote(item)
  {
    Endpoint(item.fields[1], if Atoi(item.fields[2]).Some? then Atoi(item.fields[2]).value else MAX_INT,
             if |item.fields| == 4 && HasPrefix(item.fields[3], "tcp") then "tcp" else "udp")
  }

  /** The endpoint of the first remote whose port is written in digits only. */
  function FirstPlainRemote(items: seq<Item>): Option<Endpoint> {
    if items == [] then None
    else if PlainRemote(items[0]) then Some(EndpointOf(items[0]))
    else FirstPlainRemote(items[1..])
  }

  // ---------- lines ----------

  lemma {:induction false} SkipRestOfLine(re: Matcher, s: string, rest: string)
    requires '\n' !in s
    ensures FirstMatch(re, s + "\n" + rest, false) == FirstMatch(re, rest, true)
  {
    var t := s + "\n" + rest;
    if s == "" {
      assert t[0] == '\n' && t[1..] == rest;
    } else {
      assert t[1..] == s[1..] + "\n" + rest && t[0] == s[0];
      SkipRestOfLine(re, s[1..], rest);
    }
  }

  lemma SkipLine(re: Matcher, line: string, rest: string)
    requires '\n' !in line && re(line + "\n" + rest).None?
    ensures FirstMatch(re, line + "\n" + rest, true) == FirstMatch(re, rest, true)
  {
    var t := line + "\n" + rest;
    if line == "" {
      assert t[0] == '\n' && t[1..] == rest;
    } else {
      var tail := line[1..];
      assert t[1..] == tail + "\n" + rest && t[0] == line[0];
      SkipRestOfLine(re, tail, rest);
    }
  }

  /** A line that does not start with "remote" cannot match, even across its line break. */
  lemma NotRemotePrefix(line: string, tail: string)
    requires '\n' !in line && !HasPrefix(line, "remote")
    ensures MatchAt(line + "\n" + tail).None?
  {
    var t := line + "\n" + tail;
    if |line| >= 6 {
      assert |t| >= 6 && t[..6] == line[..6];
    } else {
      assert t[|line|] == '\n' && '\n' !in "remote";
      assert |t| >= 6 ==> t[..6][|line|] == '\n';
    }
  }

  /** Nor can one whose name merely begins with "remote". */
  lemma LongerNameDoesNotMatch(line: string, tail: string)
    requires HasPrefix(line, "remote") && |line| > 6 && !ReSpace(line[6])
    ensures MatchAt(line + "\n" + tail).None?
  {
    var t := line + "\n" + tail;
    assert t[6..][0] == line[6];
    assert t[6..][0..] == t[6..];
  }

  // ---------- one remote line ----------

  predicate NoReSpace(s: string) { forall i :: 0 <= i < |s| ==> !ReSpace(s[i]) }

  lemma SolidHasNoReSpace(s: string)
    requires Solid(s)
    ensures s != "" && NoReSpace(s)
  {
  }

  /** What the text after the port must look like for the last group to be decided by this line. */
  predicate CleanTail(tail: string) {
    tail == "" || (!ReSpace(tail[0]) && !HasPrefix(tail, "udp") && !HasPrefix(tail, "tcp"))
  }

  /** A run over a word stops where something else begins. */
  lemma OneRun(p: char -> bool, word: string, rest: string)
    requires forall i :: 0 <= i < |word| ==> p(word[i])
    requires rest == "" || !p(rest[0])
    ensures Run(p, word + rest) == |word|
    ensures (word + rest)[..|word|] == word && (word + rest)[|word|..] == rest
  {
    RunOfPrefix(p, word, rest);
  }

  function RemoteText(host: string, port: string, after: string): string {
    "remote" + (" " + (host + (" " + (port + after))))
  }

  lemma MatchOfDigits(host: string, rest: string, n: nat)
    requires host != "" && NoReSpace(host) && rest != "" && !ReSpace(rest[0]) && n == Run(DIGITS, rest)
    ensures MatchAt("remote" + (" " + (host + (" " + rest)))) ==
            if n == 0 then None else Some(Match(host, rest[..n], ProtoGroup(rest[n..])))
  {
    var p2 := host + (" " + rest);
    OneRun(SPACES, " ", p2);
    OneRun(WORD, host, " " + rest);
    OneRun(SPACES, " ", rest);
    assert ("remote" + (" " + p2))[..6] == "remote" && ("remote" + (" " + p2))[6..] == " " + p2;
  }

  /** Matching "remote <host> <port>" followed by white space. */
  lemma MatchOfRemote(host: string, port: string, after: string)
    requires host != "" && NoReSpace(host) && NoReSpace(port) && port != ""
    requires after != "" && ReSpace(after[0])
    ensures AllDigits(port) ==> MatchAt(RemoteText(host, port, after)) == Some(Match(host, port, ProtoGroup(after)))
    ensures !IsDigit(port[0]) ==> MatchAt(RemoteText(host, port, after)).None?
  {
    var n := DigitRun(port, after);
    MatchOfDigits(host, port + after, n);
  }

  lemma DigitRun(port: string, after: string) returns (n: nat)
    requires NoReSpace(port) && port != "" && after != "" && ReSpace(after[0])
    ensures !ReSpace((port + after)[0]) && n == Run(DIGITS, port + after)
    ensures AllDigits(port) ==> n == |port| && (port + after)[..n] == port && (port + after)[n..] == after
    ensures !IsDigit(port[0]) ==> n == 0
  {
    n := Run(DIGITS, port + after);
    assert (port + after)[0] == port[0];
    if AllDigits(port) { OneRun(DIGITS, port, after); }
  }

  lemma ProtoOfNewline(tail: string)
    requires CleanTail(tail)
    ensures ProtoGroup("\n" + tail) == ""
  {
    OneRun(SPACES, "\n", tail);
  }

  lemma ProtoOfPrefix(proto: string, tail: string)
    requires |proto| >= 3 && (proto[..3] == "udp" || proto[..3] == "tcp")
    ensures ProtoGroup(" " + proto + tail) == if HasPrefix(proto, "tcp") then "tcp" else "udp"
  {
    var rest := proto + tail;
    assert " " + proto + tail == " " + rest;
    assert rest[..3] == proto[..3] && rest[0] == proto[..3][0];
    OneRun(SPACES, " ", rest);
  }

  lemma ProtoOfWord(proto: string, tail: string)
    requires proto in PROTOCOLS
    ensures ProtoGroup(" " + proto + tail) == if HasPrefix(proto, "tcp") then "tcp" else "udp"
  {
    ProtocolPrefixes(proto);
    ProtoOfPrefix(proto, tail);
  }

  lemma ProtocolPrefixes(proto: string)
    requires proto in PROTOCOLS
    ensures |proto| >= 3 && (proto[..3] == "udp" || proto[..3] == "tcp")
  {
  }

  // ---------- the whole text ----------

  lemma NameStart(name: string)
    requires ShapeOf(name).Some?
    ensures |name| >= 2 && name[0] != 'u' && !(name[0] == 't' && name[1] == 'c')
  {
  }

  lemma FirstFieldStartsLine(fields: seq<string>)
    requires fields != []
    ensures |Join(fields, " ")| >= |fields[0]| && Join(fields, " ")[..|fields[0]|] == fields[0]
    ensures |Join(fields, " ")| > |fields[0]| ==> Join(fields, " ")[|fields[0]|] == ' '
  {
  }

  /** A text whose first two characters rule out white space and both protocol names. */
  lemma CleanStart(text: string)
    requires |text| >= 2 && !ReSpace(text[0]) && text[0] != 'u' && !(text[0] == 't' && text[1] == 'c')
    ensures CleanTail(text)
  {
    if |text| >= 3 {
      var head := text[..3];
      assert head[0] == text[0] && head[1] == text[1];
    }
  }

  lemma PrintedItemStart(item: Item, ip: string, parseIP: AddressParser)
    requires WellFormed(item) && ItemPermitted(item, ip, parseIP)
    ensures var line := PrintItem(item)[0];
            |line| >= 2 && !ReSpace(line[0]) && line[0] != 'u' && !(line[0] == 't' && line[1] == 'c')
  {
    if item.Directive? {
      var line, name := PrintItem(item)[0], item.fields[0];
      FirstFieldStartsLine(item.fields);
      NameStart(name);
      assert line[0] == line[..|name|][0] && line[1] == line[..|name|][1];
      assert Solid(name);
    }
  }

  lemma {:induction false} PrintedStart(items: seq<Item>) returns (line: string, text: string)
    requires items != []
    ensures line == PrintItem(items[0])[0] && Unlines(Print(items)) == line + "\n" + text
  {
    var head, tail := PrintItem(items[0]), Print(items[1..]);
    line := head[0];
    text := Unlines(head[1..] + tail);
    FirstLine(line, head[1..] + tail);
    assert [line] + (head[1..] + tail) == head + tail;
  }

  lemma FirstLine(line: string, more: seq<string>)
    ensures Unlines([line] + more) == line + "\n" + Unlines(more)
  {
    assert ([line] + more)[1..] == more;
  }

  lemma PrintedTailIsClean(items: seq<Item>, ip: string, parseIP: AddressParser)
    requires AllWellFormed(items) && AllPermitted(items, ip, parseIP)
    ensures CleanTail(Unlines(Print(items)))
  {
    if items != [] {
      assert items[0] in items && ItemPermitted(items[0], ip, parseIP);
      PrintedItemStart(items[0], ip, parseIP);
      var line, text := PrintedStart(items);
      CleanStart(line + "\n" + text);
    }
  }

  lemma PrefixIsInName(fields: seq<string>)
    requires WellFormed(Directive(fields))
    ensures HasPrefix(Join(fields, " "), "remote") ==> HasPrefix(fields[0], "remote")
  {
    var line, name := Join(fields, " "), fields[0];
    FirstFieldStartsLine(fields);
    if |name| >= 6 {
      assert line[..6] == name[..6];
    } else {
      assert ' ' !in "remote";
      assert |line| >= 6 ==> line[..6][|name|] == line[|name|];
    }
  }

  /** A directive other than remote never matches. */
  lemma OtherDirective(fields: seq<string>, rest: string)
    requires WellFormed(Directive(fields)) && fields[0] != "remote"
    ensures MatchAt(Join(fields, " ") + "\n" + rest).None?
  {
    var line, name := Join(fields, " "), fields[0];
    PrintedDirectiveLine(fields);
    if !HasPrefix(line, "remote") {
      NotRemotePrefix(line, rest);
    } else {
      PrefixIsInName(fields);
      FirstFieldStartsLine(fields);
      assert name[..|name|] == name;
      assert |name| > 6 && Solid(name);
      assert line[6] == line[..|name|][6];
      LongerNameDoesNotMatch(line, rest);
    }
  }

  lemma PrintedDirectiveLine(fields: seq<string>)
    requires WellFormed(Directive(fields))
    ensures '\n' !in Join(fields, " ")
  {
    FieldsOfJoin(fields);
    assert '\n' in Join(fields, " ") ==> IsSpace('\n');
  }

  function ToEndpoint(m: Match): Endpoint {
    Endpoint(m.host, if Atoi(m.port).Some? then Atoi(m.port).value else MAX_INT, if m.proto == "" then "udp" else m.proto)
  }

  /** A permitted remote line matches exactly when its port is all digits, and then yields its own endpoint. */
  lemma RemoteDirective(fields: seq<string>, ip: string, parseIP: AddressParser, rest: string)
    requires WellFormed(Directive(fields)) && Remote(Directive(fields)) && Permitted(fields, ip, parseIP)
    requires CleanTail(rest)
    ensures var m := MatchAt(Join(fields, " ") + "\n" + rest);
            && (m.Some? <==> PlainRemote(Directive(fields)))
            && (m.Some? ==> ToEndpoint(m.value) == EndpointOf(Directive(fields)))
  {
    var args, port := fields[1..], fields[2];
    assert args[0] == ip == fields[1] && args[1] == port;
    assert Solid(fields[1]) && Solid(port);
    SolidHasNoReSpace(fields[1]);
    SolidHasNoReSpace(port);
    assert AllDigits(port) || !IsDigit(port[0]);
    ProtoOfNewline(rest);
    if |fields| == 3 {
      RemoteLine(fields, rest);
      MatchOfRemote(fields[1], port, "\n" + rest);
    } else {
      var proto := fields[3];
      assert args[2] == proto;
      ProtoOfWord(proto, "\n" + rest);
      RemoteLine(fields, rest);
      MatchOfRemote(fields[1], port, " " + proto + ("\n" + rest));
    }
  }

  lemma JoinOfThree(a: string, b: string, c: string, after: string)
    ensures Join([a, b, c], " ") + after == a + (" " + (b + (" " + (c + after))))
  {
    assert [a, b, c][1..] == [b, c] && [b, c][1..] == [c];
    var sep := " ";
    assert Join([b, c], sep) == b + sep + Join([c], sep);
    Nest(a, sep, b, c, after);
  }

  lemma Nest(a: string, sep: string, b: string, c: string, after: string)
    ensures (a + sep + (b + sep + c)) + after == a + (sep + (b + (sep + (c + after))))
  {
  }

  lemma {:induction false} JoinSplit(words: seq<string>, last: string)
    requires words != []
    ensures Join(words + [last], " ") == Join(words, " ") + (" " + last)
  {
    if |words| == 1 {
      assert (words + [last])[1..] == [last];
    } else {
      assert (words + [last])[1..] == words[1..] + [last];
      JoinSplit(words[1..], last);
      var a, b, c := words[0] + " ", Join(words[1..], " "), " " + last;
      assert a + (b + c) == (a + b) + c;
    }
  }

  lemma RemoteLine(fields: seq<string>, rest: string)
    requires fields != [] && fields[0] == "remote" && 3 <= |fields| <= 4
    ensures Join(fields, " ") + "\n" + rest ==
            RemoteText(fields[1], fields[2], if |fields| == 3 then "\n" + rest else " " + fields[3] + ("\n" + rest))
  {
    var three, tail := [fields[0], fields[1], fields[2]], "\n" + rest;
    if |fields| == 3 {
      assert fields == three;
      JoinOfThree(fields[0], fields[1], fields[2], tail);
      Reassociate(Join(fields, " "), "\n", rest);
    } else {
      assert fields == three + [fields[3]];
      JoinSplit(three, fields[3]);
      JoinOfThree(fields[0], fields[1], fields[2], " " + fields[3] + tail);
      Reassociate(Join(fields, " "), "\n", rest);
      Reassociate(Join(three, " "), " " + fields[3], tail);
    }
  }

  lemma Reassociate(a: string, b: string, c: string)
    ensures (a + b) + c == a + (b + c)
  {
  }

  function MatchedEndpoint(m: Option<Match>): Option<Endpoint> {
    if m.Some? then Some(ToEndpoint(m.value)) else None
  }

  lemma MatchOfDirective(fields: seq<string>, ip: string, parseIP: AddressParser, rest: string)
    requires WellFormed(Directive(fields)) && Permitted(fields, ip, parseIP) && CleanTail(rest)
    ensures MatchedEndpoint(MatchAt(Join(fields, " ") + "\n" + rest)) ==
            if PlainRemote(Directive(fields)) then Some(EndpointOf(Directive(fields))) else None
  {
    if fields[0] == "remote" {
      RemoteDirective(fields, ip, parseIP, rest);
    } else {
      OtherDirective(fields, rest);
    }
  }

  lemma FirstMatchOfLine(re: Matcher, line: string, rest: string)
    requires '\n' !in line
    ensures FirstMatch(re, line + "\n" + rest, true) ==
            if re(line + "\n" + rest).Some? then re(line + "\n" + rest) else FirstMatch(re, rest, true)
  {
    if re(line + "\n" + rest).None? { SkipLine(re, line, rest); }
  }
}
