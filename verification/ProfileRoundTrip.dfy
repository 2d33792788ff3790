/**
 The printer and the parser of profiles are inverse on well-formed items, so the validated
 text is (up to two exact side conditions) a fixed point of the validator. The supervisor
 validates the stored text again before every connection.
 */
module ProfileRoundTrip {
  import opened Common
  import opened Text
  import opened Profile

  predicate BodyLine(name: string, line: string) {
    '\n' !in line && TrimSpace(line) != "" && TrimSpace(line) != CloseTag(name)
  }

  predicate WellFormed(item: Item) {
    match item
    case Directive(fields) => fields != [] && AllSolid(fields) && fields[0][0] !in "#;<"
    case Block(name, body) => name in BLOCK_NAMES && forall l :: l in body ==> BodyLine(name, l)
  }

  predicate AllWellFormed(items: seq<Item>) { forall item :: item in items ==> WellFormed(item) }

  predicate NoNewlines(lines: seq<string>) { forall l :: l in lines ==> '\n' !in l }

  // ---------- the parser yields well-formed items ----------

  lemma {:induction false} TakeBlockIsWellFormed(name: string, lines: seq<string>)
    requires NoNewlines(lines) && TakeBlock(name, lines).Closed?
    ensures forall l :: l in TakeBlock(name, lines).body ==> BodyLine(name, l)
    ensures NoNewlines(TakeBlock(name, lines).rest)
  {
    if TrimSpace(lines[0]) != CloseTag(name) {
      TakeBlockIsWellFormed(name, lines[1..]);
      assert lines[0] in lines;
    }
  }

  lemma {:induction false} ParsedIsWellFormed(lines: seq<string>)
    requires NoNewlines(lines) && ParseLines(lines).Some?
    ensures AllWellFormed(ParseLines(lines).value)
    decreases |lines|
  {
    if lines != [] {
      var line := TrimSpace(lines[0]);
      assert NoNewlines(lines[1..]);
      if Ignorable(line) {
        ParsedIsWellFormed(lines[1..]);
      } else if line[0] == '<' {
        var name := OpenedBlock(line).value;
        TakeBlockIsWellFormed(name, lines[1..]);
        ParsedIsWellFormed(TakeBlock(name, lines[1..]).rest);
      } else {
        TrimSpaceShape(lines[0]);
        FieldsAreSolid(line);
        ParsedIsWellFormed(lines[1..]);
      }
    }
  }

  // ---------- parsing what was printed ----------

  lemma {:induction false} TakeBlockOfPrinted(name: string, body: seq<string>, rest: seq<string>)
    requires name in BLOCK_NAMES && forall l :: l in body ==> BodyLine(name, l)
    ensures TakeBlock(name, body + [CloseTag(name)] + rest) == Closed(body, rest)
  {
    var lines := body + [CloseTag(name)] + rest;
    TagIsTrimmed(name);
    if body == [] {
      assert lines[1..] == rest;
    } else {
      assert lines[1..] == body[1..] + [CloseTag(name)] + rest;
      assert lines[0] == body[0] && body[0] in body;
      TakeBlockOfPrinted(name, body[1..], rest);
    }
  }

  lemma TagIsTrimmed(name: string)
    ensures TrimSpace(OpenTag(name)) == OpenTag(name) && TrimSpace(CloseTag(name)) == CloseTag(name)
    ensures name in BLOCK_NAMES ==> OpenedBlock(OpenTag(name)) == Some(name)
  {
    TrimSpaceShape(OpenTag(name));
    TrimSpaceShape(CloseTag(name));
    if name in BLOCK_NAMES && OpenedBlock(OpenTag(name)).Some? {
      var n := OpenedBlock(OpenTag(name)).value;
      assert OpenTag(name)[1..|name| + 1] == name && OpenTag(n)[1..|n| + 1] == n;
    }
  }

  lemma ParseOfPrintedDirective(fields: seq<string>, tail: seq<string>)
    requires WellFormed(Directive(fields))
    ensures ParseLines([Join(fields, " ")] + tail) == Prepend([Directive(fields)], ParseLines(tail))
  {
    var lines := [Join(fields, " ")] + tail;
    FieldsOfJoin(fields);
    TrimSpaceShape(lines[0]);
    RemainingOutside(lines);
    assert lines[1..] == tail;
  }

  lemma ParseOfPrintedBlock(name: string, body: seq<string>, tail: seq<string>)
    requires WellFormed(Block(name, body))
    ensures ParseLines(PrintItem(Block(name, body)) + tail) == Prepend([Block(name, body)], ParseLines(tail))
  {
    var lines := PrintItem(Block(name, body)) + tail;
    TagIsTrimmed(name);
    assert lines[0] == OpenTag(name);
    assert lines[1..] == body + [CloseTag(name)] + tail;
    RemainingOutside(lines);
    TakeBlockOfPrinted(name, body, tail);
    assert [] + body == body;
  }

  lemma ParseOfPrintedItem(item: Item, tail: seq<string>)
    requires WellFormed(item)
    ensures ParseLines(PrintItem(item) + tail) == Prepend([item], ParseLines(tail))
  {
    match item
    case Directive(fields) => ParseOfPrintedDirective(fields, tail);
    case Block(name, body) => ParseOfPrintedBlock(name, body, tail);
  }

  /** The parser undoes the printer, whatever lines follow. */
  lemma {:induction false} ParseOfPrinted(items: seq<Item>, rest: seq<string>)
    requires AllWellFormed(items)
    ensures ParseLines(Print(items) + rest) == Prepend(items, ParseLines(rest))
  {
    if items == [] {
      assert [] + rest == rest;
      PrependNothing(ParseLines(rest));
    } else {
      var item, tail := items[0], Print(items[1..]) + rest;
      assert item in items && AllWellFormed(items[1..]);
      ParseOfPrinted(items[1..], rest);
      ParseOfPrintedItem(item, tail);
      assert Print(items) + rest == PrintItem(item) + tail;
      PrependSplit(item, items, ParseLines(rest));
    }
  }

  lemma PrependSplit(item: Item, items: seq<Item>, rest: Option<seq<Item>>)
    requires items != [] && items[0] == item
    ensures Prepend([item], Prepend(items[1..], rest)) == Prepend(items, rest)
  {
    if rest.Some? { assert [item] + (items[1..] + rest.value) == items + rest.value; }
  }

  // ---------- carriage returns ----------

  function ChopItem(item: Item): Item {
    match item
    case Directive(_) => item
    case Block(name, body) => Block(name, ChopAll(body))
  }

  function ChopItems(items: seq<Item>): seq<Item> {
    if items == [] then [] else [ChopItem(items[0])] + ChopItems(items[1..])
  }

  lemma ChopAllAppend(a: seq<string>, b: seq<string>)
    ensures ChopAll(a + b) == ChopAll(a) + ChopAll(b)
  {
  }

  lemma ChopKeepsBodyLines(name: string, line: string)
    requires BodyLine(name, line)
    ensures BodyLine(name, ChopCR(line))
  {
    if EndsInCR(line) {
      TrimSpaceDropsTail(ChopCR(line), '\r');
      assert line == ChopCR(line) + ['\r'];
    }
  }

  lemma TagIsPlain(name: string)
    requires name in BLOCK_NAMES
    ensures '\n' !in OpenTag(name) && '\n' !in CloseTag(name)
    ensures ChopAll([OpenTag(name)]) == [OpenTag(name)] && ChopAll([CloseTag(name)]) == [CloseTag(name)]
  {
    assert '\n' !in name;
    assert !EndsInCR(OpenTag(name)) && !EndsInCR(CloseTag(name));
  }

  lemma ChopOfPrintedDirective(fields: seq<string>)
    requires WellFormed(Directive(fields))
    ensures ChopAll([Join(fields, " ")]) == [Join(fields, " ")] && '\n' !in Join(fields, " ")
  {
    FieldsOfJoin(fields);
    var line := Join(fields, " ");
    assert IsSpace('\r') && Trimmed(line);
    assert '\n' in line ==> IsSpace('\n');
  }

  lemma ChopOfPrintedBlock(name: string, body: seq<string>)
    requires WellFormed(Block(name, body))
    ensures WellFormed(Block(name, ChopAll(body)))
    ensures ChopAll(PrintItem(Block(name, body))) == PrintItem(Block(name, ChopAll(body)))
  {
    forall l | l in ChopAll(body) ensures BodyLine(name, l) {
      var i :| 0 <= i < |body| && l == ChopCR(body[i]);
      assert body[i] in body;
      ChopKeepsBodyLines(name, body[i]);
    }
    TagIsPlain(name);
    ChopAllAppend([OpenTag(name)] + body, [CloseTag(name)]);
    ChopAllAppend([OpenTag(name)], body);
  }

  lemma ChopOfPrintedItem(item: Item)
    requires WellFormed(item)
    ensures WellFormed(ChopItem(item))
    ensures ChopAll(PrintItem(item)) == PrintItem(ChopItem(item))
    ensures NoNewlines(PrintItem(item))
  {
    match item {
      case Directive(fields) => ChopOfPrintedDirective(fields);
      case Block(name, body) =>
        TagIsPlain(name);
        ChopOfPrintedBlock(name, body);
    }
  }

  lemma {:induction false} ChopOfPrinted(items: seq<Item>)
    requires AllWellFormed(items)
    ensures AllWellFormed(ChopItems(items))
    ensures ChopAll(Print(items)) == Print(ChopItems(items))
    ensures NoNewlines(Print(items))
  {
    if items != [] {
      assert items[0] in items && AllWellFormed(items[1..]);
      ChopOfPrinted(items[1..]);
      ChopOfPrintedItem(items[0]);
      ChopAllAppend(PrintItem(items[0]), Print(items[1..]));
    }
  }

  lemma {:induction false} ChopKeepsChecks(items: seq<Item>, ip: string, parseIP: AddressParser)
    ensures |ChopItems(items)| == |items|
    ensures forall i :: 0 <= i < |items| ==> ChopItems(items)[i] == ChopItem(items[i])
    ensures AllPermitted(ChopItems(items), ip, parseIP) <==> AllPermitted(items, ip, parseIP)
    ensures HasRemote(ChopItems(items)) <==> HasRemote(items)
  {
    ChopItemsAt(items);
    forall i | 0 <= i < |items|
      ensures ItemPermitted(ChopItems(items)[i], ip, parseIP) <==> ItemPermitted(items[i], ip, parseIP)
      ensures Remote(ChopItems(items)[i]) <==> Remote(items[i])
    {
    }
  }

  lemma {:induction false} ChopItemsAt(items: seq<Item>)
    ensures |ChopItems(items)| == |items|
    ensures forall i :: 0 <= i < |items| ==> ChopItems(items)[i] == ChopItem(items[i])
  {
    if items != [] { ChopItemsAt(items[1..]); }
  }

  /** Some line break of the text is preceded by a carriage return. */
  predicate HasCRLF(s: string) { exists i :: 0 <= i < |s| - 1 && s[i] == '\r' && s[i + 1] == '\n' }

  lemma {:induction false} ReplaceCRLFFixedPoint(s: string)
    ensures |ReplaceCRLF(s)| <= |s|
    ensures HasCRLF(s) ==> |ReplaceCRLF(s)| < |s|
    ensures !HasCRLF(s) ==> ReplaceCRLF(s) == s
    decreases |s|
  {
    if s == "" {
    } else if |s| >= 2 && s[0] == '\r' && s[1] == '\n' {
      ReplaceCRLFFixedPoint(s[2..]);
    } else {
      ReplaceCRLFFixedPoint(s[1..]);
      if HasCRLF(s) {
        var i :| 0 <= i < |s| - 1 && s[i] == '\r' && s[i + 1] == '\n';
        assert i > 0 && s[1..][i - 1] == '\r' && s[1..][i] == '\n';
      }
      if HasCRLF(s[1..]) {
        var i :| 0 <= i < |s[1..]| - 1 && s[1..][i] == '\r' && s[1..][i + 1] == '\n';
        assert s[i + 1] == '\r' && s[i + 2] == '\n';
      }
    }
  }

  // ---------- validating twice ----------

  lemma LinesOfPrinted(items: seq<Item>)
    requires AllWellFormed(items)
    ensures ReplaceCRLF(Unlines(Print(items))) == Unlines(Print(ChopItems(items)))
    ensures Lines(Unlines(Print(items))) == Print(ChopItems(items)) + [""]
    ensures ParseLines(Lines(Unlines(Print(items)))) == Some(ChopItems(items))
  {
    ChopOfPrinted(items);
    ReplaceCRLFOfUnlines(Print(items));
    ChopOfPrinted(ChopItems(items));
    SplitOfUnlines(Print(ChopItems(items)));
    ParseOfPrinted(ChopItems(items), [""]);
    TrimSpaceShape("");
    assert ParseLines([""]) == ParseLines([""][1..]);
    assert ChopItems(items) + [] == ChopItems(items);
  }

  lemma ItemsOf(profile: string)
    requires ParseLines(Lines(profile)).Some?
    ensures AllWellFormed(ParseLines(Lines(profile)).value)
  {
    SplitPartsLackSeparator(ReplaceCRLF(profile), '\n');
    ParsedIsWellFormed(Lines(profile));
  }

  lemma UnlinesIsPositive(lines: seq<string>)
    requires lines != []
    ensures ByteSize(Unlines(lines)) > 0
  {
    assert Unlines(lines) != "";
  }

  /**
   The text an accepted profile is replaced by is accepted again exactly when it still fits
   the size limit, and it is then handed on unchanged exactly when it holds no "\r\n".
   */
  lemma {:induction false} Revalidation(profile: string, ip: string, parseIP: AddressParser)
    requires Accepts(profile, ip, parseIP)
    ensures Accepts(Normal(profile), ip, parseIP) <==> ByteSize(Normal(profile)) <= MAX_SIZE
    ensures ParseLines(Lines(Normal(profile))).Some?
    ensures Normal(Normal(profile)) == Normal(profile) <==> !HasCRLF(Normal(profile))
  {
    var items, out := ParseLines(Lines(profile)).value, Normal(profile);
    ItemsOf(profile);
    LinesOfPrinted(items);
    ChopKeepsChecks(items, ip, parseIP);
    assert items != [];
    PrintNonempty(items);
    UnlinesIsPositive(Print(items));
    ReplaceCRLFFixedPoint(out);
    assert Normal(out) == ReplaceCRLF(out);
  }

  /** Printing and parsing are inverse on text without "\r\n". */
  lemma {:induction false} PrintParseInverse(items: seq<Item>)
    requires AllWellFormed(items) && !HasCRLF(Unlines(Print(items)))
    ensures ParseLines(Lines(Unlines(Print(items)))) == Some(items)
  {
    var text := Unlines(Print(items));
    LinesOfPrinted(items);
    ReplaceCRLFFixedPoint(text);
    ChopOfPrinted(items);
    SplitOfUnlines(Print(items));
    ParseOfPrinted(items, [""]);
    TrimSpaceShape("");
    assert ParseLines([""]) == ParseLines([""][1..]);
    assert items + [] == items;
  }

  /** The printing of permitted items that fits the limit and holds no "\r\n" is accepted as it stands. */
  lemma {:induction false} PrintedIsAccepted(items: seq<Item>, ip: string, parseIP: AddressParser)
    requires AllWellFormed(items) && AllPermitted(items, ip, parseIP) && HasRemote(items)
    requires IsPublicIPv4(ip, parseIP)
    requires var text := Unlines(Print(items)); ByteSize(text) <= MAX_SIZE && !HasCRLF(text)
    ensures Accepts(Unlines(Print(items)), ip, parseIP)
    ensures Normal(Unlines(Print(items))) == Unlines(Print(items))
  {
    PrintParseInverse(items);
    PrintNonempty(items);
    UnlinesIsPositive(Print(items));
  }
}
