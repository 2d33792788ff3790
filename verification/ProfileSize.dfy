/**
 The validated text is at most one byte longer than the profile, so only a profile that sits
 exactly at the limit can be accepted once and refused when it is validated again; and the
 row loop of the node list keeps exactly the rows whose profile is accepted.
 */
module ProfileSize {
  import opened Common
  import opened Text
  import opened Profile
  import opened ProfileRoundTrip

  lemma {:induction false} ByteSizeConcat(a: string, b: string)
    ensures ByteSize(a + b) == ByteSize(a) + ByteSize(b)
  {
    if a == "" {
      assert a + b == b;
    } else {
      ByteSizeConcat(a[1..], b);
      assert (a + b)[1..] == a[1..] + b;
    }
  }

  lemma TrimNeverGrows(s: string)
    ensures ByteSize(TrimSpace(s)) <= ByteSize(s)
  {
    var left := TrimLeft(s);
    TrimLeftShape(s);
    TrimRightShape(left);
    ByteSizeConcat(s[..|s| - |left|], left);
    assert s == s[..|s| - |left|] + left;
    ByteSizeConcat(TrimRight(left), left[|TrimRight(left)|..]);
    assert left == TrimRight(left) + left[|TrimRight(left)|..];
  }

  lemma {:induction false} FieldsNeverGrow(s: string)
    ensures ByteSize(Join(Fields(s), " ")) <= ByteSize(s)
    decreases |s|
  {
    if s == "" {
    } else if IsSpace(s[0]) {
      FieldsNeverGrow(s[1..]);
    } else {
      var n := WordLength(s);
      var word, rest := s[..n], s[n..];
      ByteSizeConcat(word, rest);
      assert s == word + rest;
      if rest != "" {
        var more := Fields(rest[1..]);
        FieldsNeverGrow(rest[1..]);
        assert Fields(s) == [word] + more;
        if more == [] {
          assert [word] + more == [word];
        } else {
          assert ([word] + more)[1..] == more;
          ByteSizeConcat(word + " ", Join(more, " "));
          ByteSizeConcat(word, " ");
        }
      }
    }
  }

  lemma UnlinesSize(line: string, rest: seq<string>)
    ensures ByteSize(Unlines([line] + rest)) == ByteSize(line) + 1 + ByteSize(Unlines(rest))
  {
    assert ([line] + rest)[1..] == rest;
    ByteSizeConcat(line + "\n", Unlines(rest));
    ByteSizeConcat(line, "\n");
  }

  lemma {:induction false} BlockNeverGrows(name: string, lines: seq<string>)
    requires TakeBlock(name, lines).Closed?
    ensures var t := TakeBlock(name, lines);
            ByteSize(Unlines(t.body)) + ByteSize(CloseTag(name)) + 1 + ByteSize(Unlines(t.rest)) <= ByteSize(Unlines(lines))
  {
    assert lines == [lines[0]] + lines[1..];
    UnlinesSize(lines[0], lines[1..]);
    TrimNeverGrows(lines[0]);
    if TrimSpace(lines[0]) != CloseTag(name) {
      BlockNeverGrows(name, lines[1..]);
      UnlinesSize(lines[0], TakeBlock(name, lines[1..]).body);
    }
  }

  lemma PrintedItemSize(item: Item, items: seq<Item>)
    ensures ByteSize(Unlines(Print([item] + items))) == ByteSize(Unlines(PrintItem(item))) + ByteSize(Unlines(Print(items)))
  {
    assert ([item] + items)[1..] == items;
    UnlinesConcat(PrintItem(item), Print(items));
    ByteSizeConcat(Unlines(PrintItem(item)), Unlines(Print(items)));
  }

  lemma PrintedBlockSize(name: string, body: seq<string>, items: seq<Item>)
    ensures ByteSize(Unlines(Print([Block(name, body)] + items))) ==
            ByteSize(OpenTag(name)) + 1 + ByteSize(Unlines(body)) + ByteSize(CloseTag(name)) + 1 + ByteSize(Unlines(Print(items)))
  {
    PrintedItemSize(Block(name, body), items);
    UnlinesConcat(body, [CloseTag(name)]);
    ByteSizeConcat(Unlines(body), Unlines([CloseTag(name)]));
    UnlinesSize(CloseTag(name), []);
    assert [CloseTag(name)] + [] == [CloseTag(name)];
    UnlinesSize(OpenTag(name), body + [CloseTag(name)]);
    assert PrintItem(Block(name, body)) == [OpenTag(name)] + (body + [CloseTag(name)]);
  }

  lemma PrintedDirectiveSize(line: string, items: seq<Item>)
    ensures ByteSize(Unlines(Print([Directive(Fields(line))] + items))) <= ByteSize(line) + 1 + ByteSize(Unlines(Print(items)))
  {
    FieldsNeverGrow(line);
    PrintedItemSize(Directive(Fields(line)), items);
    UnlinesSize(Join(Fields(line), " "), []);
    assert [Join(Fields(line), " ")] + [] == [Join(Fields(line), " ")];
  }

  lemma {:induction false} PrintingNeverGrows(lines: seq<string>)
    requires ParseLines(lines).Some?
    ensures ByteSize(Unlines(Print(ParseLines(lines).value))) <= ByteSize(Unlines(lines))
    decreases |lines|
  {
    if lines != [] {
      var line, rest := TrimSpace(lines[0]), lines[1..];
      assert lines == [lines[0]] + rest;
      UnlinesSize(lines[0], rest);
      TrimNeverGrows(lines[0]);
      if Ignorable(line) {
        PrintingNeverGrows(rest);
      } else if line[0] == '<' {
        var name := OpenedBlock(line).value;
        var t := TakeBlock(name, rest);
        BlockNeverGrows(name, rest);
        PrintingNeverGrows(t.rest);
        PrintedBlockSize(name, t.body, ParseLines(t.rest).value);
      } else {
        PrintingNeverGrows(rest);
        PrintedDirectiveSize(line, ParseLines(rest).value);
      }
    }
  }

  lemma {:induction false} UnlinesOfSplit(s: string)
    ensures Unlines(Split(s, '\n')) == s + "\n"
  {
    if s != "" {
      UnlinesOfSplit(s[1..]);
      var tail := Split(s[1..], '\n');
      assert s == [s[0]] + s[1..];
      if s[0] == '\n' {
        assert ([""] + tail)[1..] == tail;
      } else {
        var parts := [[s[0]] + tail[0]] + tail[1..];
        assert parts[1..] == tail[1..];
        calc {
          Unlines(parts);
          ([s[0]] + tail[0]) + "\n" + Unlines(tail[1..]);
          [s[0]] + (tail[0] + "\n" + Unlines(tail[1..]));
          [s[0]] + Unlines(tail);
          [s[0]] + (s[1..] + "\n");
          s + "\n";
        }
      }
    }
  }

  lemma {:induction false} ReplaceCRLFNeverGrows(s: string)
    ensures ByteSize(ReplaceCRLF(s)) <= ByteSize(s)
    decreases |s|
  {
    if s == "" {
    } else if |s| >= 2 && s[0] == '\r' && s[1] == '\n' {
      ReplaceCRLFNeverGrows(s[2..]);
      assert ByteSize(s) == 2 + ByteSize(s[2..]) by { assert s[1..][1..] == s[2..]; }
      assert ("\n" + ReplaceCRLF(s[2..]))[1..] == ReplaceCRLF(s[2..]);
    } else {
      ReplaceCRLFNeverGrows(s[1..]);
      assert ([s[0]] + ReplaceCRLF(s[1..]))[1..] == ReplaceCRLF(s[1..]);
    }
  }

  /** The normal form has at most one byte more than the profile. */
  lemma {:induction false} NormalSize(profile: string)
    requires ParseLines(Lines(profile)).Some?
    ensures ByteSize(Normal(profile)) <= ByteSize(profile) + 1
  {
    PrintingNeverGrows(Lines(profile));
    UnlinesOfSplit(ReplaceCRLF(profile));
    ByteSizeConcat(ReplaceCRLF(profile), "\n");
    ReplaceCRLFNeverGrows(profile);
  }

  /** Below the limit, an accepted profile is always accepted again. */
  lemma {:induction false} BelowLimitRevalidates(profile: string, ip: string, parseIP: AddressParser)
    requires Accepts(profile, ip, parseIP) && ByteSize(profile) < MAX_SIZE
    ensures Accepts(Normal(profile), ip, parseIP)
  {
    NormalSize(profile);
    Revalidation(profile, ip, parseIP);
  }

  // ---------- a profile at the limit ----------

  function Repeat(c: char, n: nat): (s: string)
    ensures |s| == n && forall i :: 0 <= i < n ==> s[i] == c
  {
    seq(n, _ => c)
  }

  lemma {:induction false} AsciiSize(s: string)
    requires forall i :: 0 <= i < |s| ==> s[i] < '\U{0080}'
    ensures ByteSize(s) == |s|
  {
    if s != "" { AsciiSize(s[1..]); }
  }

  const SAMPLE_IP := "8.8.8.8"

  const SAMPLE_REMOTE := ["remote", "8.8.8.8", "1"]

  function SampleParser(): AddressParser { s => if s == SAMPLE_IP then Some(Octets(8, 8, 8, 8)) else None }

  lemma SamplePrints(token: string)
    ensures Print([Directive(SAMPLE_REMOTE), Directive(["cipher", token])]) == ["remote 8.8.8.8 1", "cipher " + token]
  {
    var remote, cipher := SAMPLE_REMOTE, ["cipher", token];
    var items := [Directive(remote), Directive(cipher)];
    assert remote[1..] == ["8.8.8.8", "1"] && remote[1..][1..] == ["1"] && cipher[1..] == [token];
    assert Join(["8.8.8.8", "1"], " ") == "8.8.8.8" + " " + Join(["1"], " ");
    assert Join(remote, " ") == "remote" + " " + ("8.8.8.8" + " " + "1") == "remote 8.8.8.8 1";
    assert Join(cipher, " ") == "cipher" + " " + token == "cipher " + token;
    assert items[1..] == [Directive(cipher)];
    assert Print([Directive(cipher)]) == PrintItem(Directive(cipher)) + [];
  }

  lemma PermittedShapes(fields: seq<string>, ip: string, parseIP: AddressParser)
    requires fields != []
    ensures fields[0] == "remote" ==> Permitted(fields, ip, parseIP) == Fits(RemoteAddress, fields[1..], ip, parseIP)
    ensures fields[0] == "cipher" ==> Permitted(fields, ip, parseIP) == Fits(Token, fields[1..], ip, parseIP)
  {
  }

  lemma SampleRemote()
    ensures Permitted(SAMPLE_REMOTE, SAMPLE_IP, SampleParser()) && WellFormed(Directive(SAMPLE_REMOTE))
  {
    assert SAMPLE_REMOTE[1..] == ["8.8.8.8", "1"];
    SampleRemoteFits();
    PermittedShapes(SAMPLE_REMOTE, SAMPLE_IP, SampleParser());
    SampleRemoteIsWellFormed();
  }

  lemma SampleRemoteIsWellFormed()
    ensures WellFormed(Directive(SAMPLE_REMOTE))
  {
  }

  lemma SampleRemoteFits()
    ensures Fits(RemoteAddress, ["8.8.8.8", "1"], SAMPLE_IP, SampleParser())
  {
    assert AllDigits("1") && Decimal("1") == 1 by { assert Decimal("1") == 10 * Decimal("1"[..0]) + 1; }
  }

  lemma SampleCipher(token: string)
    requires SafeToken(token)
    ensures Permitted(["cipher", token], SAMPLE_IP, SampleParser()) && WellFormed(Directive(["cipher", token]))
  {
    assert ["cipher", token][1..] == [token];
    PermittedShapes(["cipher", token], SAMPLE_IP, SampleParser());
    SampleCipherIsWellFormed(token);
  }

  lemma SampleCipherIsWellFormed(token: string)
    requires SafeToken(token)
    ensures WellFormed(Directive(["cipher", token]))
  {
    assert forall i :: 0 <= i < |token| ==> SafeChar(token[i]) && !IsSpace(token[i]);
  }

  lemma SampleItems(token: string)
    requires SafeToken(token)
    ensures var items := [Directive(SAMPLE_REMOTE), Directive(["cipher", token])];
            AllWellFormed(items) && AllPermitted(items, SAMPLE_IP, SampleParser()) && HasRemote(items)
  {
    SampleRemote();
    SampleCipher(token);
    assert Remote([Directive(SAMPLE_REMOTE), Directive(["cipher", token])][0]);
  }

  lemma TwoLines(a: string, b: string)
    requires '\n' !in a + b && '\r' !in a + b
    ensures Lines(a + "\n" + b) == [a, b]
  {
    var text := a + "\n" + b;
    assert forall i :: 0 <= i < |text| ==> text[i] == '\n' || text[i] in a + b;
    assert !HasCRLF(text);
    ReplaceCRLFFixedPoint(text);
    assert '\n' !in a by { assert forall c :: c in a ==> c in a + b; }
    assert '\n' !in b by { assert forall c :: c in b ==> c in a + b; }
    assert text == a + ['\n'] + b;
    SplitPrepend(a, b, '\n');
    SplitWhole(b, '\n');
  }

  lemma SampleParses(token: string)
    requires SafeToken(token) && '\n' !in token && '\r' !in token
    ensures var profile := "remote 8.8.8.8 1" + "\n" + ("cipher " + token);
            && ParseLines(Lines(profile)) == Some([Directive(SAMPLE_REMOTE), Directive(["cipher", token])])
            && Normal(profile) == profile + "\n"
  {
    var a, b := "remote 8.8.8.8 1", "cipher " + token;
    var items := [Directive(SAMPLE_REMOTE), Directive(["cipher", token])];
    TwoLines(a, b);
    SampleItems(token);
    SamplePrints(token);
    ParseOfPrinted(items, []);
    assert [a, b] + [] == [a, b] && items + [] == items;
    UnlinesIsJoin([a, b]);
  }

  /**
   A profile of exactly the permitted size, without a final newline, whose normal form is one
   byte too long: it passes when the list is read and fails when the node is connected.
   */
  lemma LimitProfileFailsSecondTime() returns (profile: string)
    ensures Accepts(profile, SAMPLE_IP, SampleParser())
    ensures !Accepts(Normal(profile), SAMPLE_IP, SampleParser())
  {
    var token := Repeat('a', MAX_SIZE - 24);
    profile := "remote 8.8.8.8 1" + "\n" + ("cipher " + token);
    AsciiSize(profile);
    AsciiSize(profile + "\n");
    SampleItems(token);
    SampleParses(token);
  }

  // ---------- a profile that keeps a carriage return ----------

  /** A certificate block of one line, and a remote. */
  function SampleBlock(line: string): seq<Item> { [Block("ca", [line]), Directive(SAMPLE_REMOTE)] }

  lemma SampleBlockItems(line: string)
    requires BodyLine("ca", line)
    ensures AllWellFormed(SampleBlock(line)) && AllPermitted(SampleBlock(line), SAMPLE_IP, SampleParser())
    ensures HasRemote(SampleBlock(line))
  {
    SampleRemote();
    assert Remote(SampleBlock(line)[1]);
  }

  lemma SampleBlockChopped(line: string)
    ensures ChopItems(SampleBlock(line)) == SampleBlock(ChopCR(line))
  {
    var remote := [Directive(SAMPLE_REMOTE)];
    assert remote[1..] == [] && ChopItems(remote) == [Directive(SAMPLE_REMOTE)] + [];
    assert SampleBlock(line)[1..] == remote;
    assert ChopAll([line]) == [ChopCR(line)];
  }

  lemma SampleBlockPrints(line: string)
    ensures Print(SampleBlock(line)) == [OpenTag("ca"), line, CloseTag("ca"), Join(SAMPLE_REMOTE, " ")]
  {
    var remote := [Directive(SAMPLE_REMOTE)];
    assert remote[1..] == [] && Print(remote) == [Join(SAMPLE_REMOTE, " ")] + [];
    assert SampleBlock(line)[1..] == remote;
  }

  lemma FourLines(a: string, b: string, c: string, d: string)
    ensures Unlines([a, b, c, d]) == a + "\n" + (b + "\n" + (c + "\n" + (d + "\n")))
  {
    assert [a, b, c, d][1..] == [b, c, d] && [b, c, d][1..] == [c, d] && [c, d][1..] == [d] && [d][1..] == [];
    assert Unlines([d]) == d + "\n" + Unlines([]);
    assert Unlines([c, d]) == c + "\n" + Unlines([d]);
    assert Unlines([b, c, d]) == b + "\n" + Unlines([c, d]);
  }

  lemma SampleBlockText(line: string)
    ensures Unlines(Print(SampleBlock(line))) ==
            OpenTag("ca") + "\n" + (line + "\n" + (CloseTag("ca") + "\n" + (Join(SAMPLE_REMOTE, " ") + "\n")))
    ensures |OpenTag("ca")| == 4 && |CloseTag("ca")| == 5 && Join(SAMPLE_REMOTE, " ") == "remote 8.8.8.8 1"
  {
    SampleBlockPrints(line);
    FourLines(OpenTag("ca"), line, CloseTag("ca"), Join(SAMPLE_REMOTE, " "));
    assert SAMPLE_REMOTE[1..] == ["8.8.8.8", "1"] && SAMPLE_REMOTE[1..][1..] == ["1"];
    assert Join(["8.8.8.8", "1"], " ") == "8.8.8.8" + " " + Join(["1"], " ");
  }

  lemma ReturnKeepsBodyLine(name: string, line: string)
    requires BodyLine(name, line)
    ensures BodyLine(name, line + ['\r'])
  {
    TrimSpaceDropsTail(line, '\r');
  }

  lemma SampleBodyLine()
    ensures BodyLine("ca", "x\r") && BodyLine("ca", "x\r\r")
  {
    TrimSpaceShape("x");
    assert CloseTag("ca")[0] == '<';
    ReturnKeepsBodyLine("ca", "x");
    ReturnKeepsBodyLine("ca", "x" + ['\r']);
    assert "x" + ['\r'] == "x\r" && "x\r" + ['\r'] == "x\r\r";
  }

  lemma {:induction false} ByteSizeAtMost(s: string)
    ensures |s| <= ByteSize(s) <= 4 * |s|
  {
    if s != "" { ByteSizeAtMost(s[1..]); }
  }

  lemma SampleBlockSize(line: string)
    requires |line| <= 3
    ensures 0 < ByteSize(Unlines(Print(SampleBlock(line)))) < MAX_SIZE
  {
    SampleBlockText(line);
    ByteSizeAtMost(Unlines(Print(SampleBlock(line))));
  }

  lemma SampleBlockBreaks(line: string)
    requires line != "" && line[|line| - 1] == '\r'
    ensures HasCRLF(Unlines(Print(SampleBlock(line))))
  {
    SampleBlockText(line);
    var text := Unlines(Print(SampleBlock(line)));
    assert text[4 + |line|] == '\r' && text[4 + |line| + 1] == '\n';
  }

  lemma SampleBlockParses(line: string)
    requires BodyLine("ca", line)
    ensures ParseLines(Lines(Unlines(Print(SampleBlock(line))))) == Some(SampleBlock(ChopCR(line)))
  {
    SampleBlockItems(line);
    LinesOfPrinted(SampleBlock(line));
    SampleBlockChopped(line);
  }

  /**
   A block line that ends in two carriage returns loses one of them when it is validated, so the
   accepted text holds "\r\n" and is changed once more when it is validated again.
   */
  lemma CarriageReturnSurvives() returns (profile: string)
    ensures Accepts(profile, SAMPLE_IP, SampleParser()) && HasCRLF(Normal(profile))
    ensures Accepts(Normal(profile), SAMPLE_IP, SampleParser()) && Normal(Normal(profile)) != Normal(profile)
  {
    var line := "x\r\r";
    profile := Unlines(Print(SampleBlock(line)));
    SampleBodyLine();
    SampleBlockParses(line);
    assert ChopCR(line) == "x\r";
    SampleBlockItems("x\r");
    SampleBlockSize(line);
    BelowLimitRevalidates(profile, SAMPLE_IP, SampleParser());
    Revalidation(profile, SAMPLE_IP, SampleParser());
    SampleBlockBreaks("x\r");
  }

  // ---------- the rows of the node list ----------

  /** One CSV row: the decoded configuration (None when base64 decoding failed) and the columns used here. */
  datatype Row = Row(first: string, config: Option<string>, hostName: string, ip: string)

  datatype Node = Node(hostName: string, ip: string, configText: string)

  predicate Keeps(row: Row, parseIP: AddressParser) {
    !HasPrefix(row.first, "*") && row.config.Some? && Accepts(row.config.value, row.ip, parseIP)
  }

  function NodeOf(row: Row): Node
    requires row.config.Some? && ParseLines(Lines(row.config.value)).Some?
  {
    Node(row.hostName, row.ip, Normal(row.config.value))
  }

  function Kept(rows: seq<Row>, parseIP: AddressParser): seq<Node> {
    if rows == [] then []
    else
      var before, last := Kept(rows[..|rows| - 1], parseIP), rows[|rows| - 1];
      if Keeps(last, parseIP) then before + [NodeOf(last)] else before
  }

  /** The row loop of Parse; every node it keeps can be validated again unless it outgrew the limit. */
  method ParseRows(rows: seq<Row>, parseIP: AddressParser) returns (nodes: seq<Node>)
    ensures nodes == Kept(rows, parseIP)
    ensures forall n :: n in nodes ==>
      (Accepts(n.configText, n.ip, parseIP) <==> ByteSize(n.configText) <= MAX_SIZE)
    ensures forall n :: n in nodes && Accepts(n.configText, n.ip, parseIP) && !HasCRLF(n.configText) ==>
      Normal(n.configText) == n.configText
  {
    nodes := [];
    for i := 0 to |rows|
      invariant nodes == Kept(rows[..i], parseIP)
      invariant forall n :: n in nodes ==> Settled(n, parseIP)
    {
      assert rows[..i + 1][..i] == rows[..i] && rows[..i + 1][i] == rows[i];
      var row := rows[i];
      if HasPrefix(row.first, "*") { continue; }
      if row.config.None? { continue; }
      var text := ValidateOpenVPNProfile(row.config.value, row.ip, parseIP);
      if text.Err? { continue; }
      Revalidation(row.config.value, row.ip, parseIP);
      nodes := nodes + [Node(row.hostName, row.ip, text.value)];
    }
    assert rows[..|rows|] == rows;
  }

  ghost predicate Settled(n: Node, parseIP: AddressParser) {
    && (Accepts(n.configText, n.ip, parseIP) <==> ByteSize(n.configText) <= MAX_SIZE)
    && ParseLines(Lines(n.configText)).Some?
    && (Normal(n.configText) == n.configText <==> !HasCRLF(n.configText))
  }
}
