/**
 The permitted directives, one by one: which names a profile may use and what each may be given, in
 literal values; the addresses that count as public, as ranges of the 32-bit address space; and what
 the numbers among the arguments mean.
 */
module ProfileRules {
  import opened Common
  import opened Text
  import opened Profile
  import opened ProfileRoundTrip

  // ---------- public addresses ----------

  function Value(o: Octets): nat { ((o.a * 256 + o.b) * 256 + o.c) * 256 + o.d }

  predicate Proper(o: Octets) { o.a < 256 && o.b < 256 && o.c < 256 && o.d < 256 }

  /**
   Not public are 0.0.0.0, 255.255.255.255, 10/8, 100.64/10, 127/8, 169.254/16, 172.16/12, 192.168/16 and
   the multicast block 224/4.
   */
  predicate PublicValue(v: nat) {
    && v != 0 && v != 0xFFFF_FFFF
    && !(0x0A00_0000 <= v <= 0x0AFF_FFFF)
    && !(0x6440_0000 <= v <= 0x647F_FFFF)
    && !(0x7F00_0000 <= v <= 0x7FFF_FFFF)
    && !(0xA9FE_0000 <= v <= 0xA9FE_FFFF)
    && !(0xAC10_0000 <= v <= 0xAC1F_FFFF)
    && !(0xC0A8_0000 <= v <= 0xC0A8_FFFF)
    && !(0xE000_0000 <= v <= 0xEFFF_FFFF)
  }

  /** A text is a public address exactly if it parses to an IPv4 address outside those ranges. */
  lemma PublicMeansRanges(s: string, parseIP: AddressParser)
    requires parseIP(s).Some? ==> Proper(parseIP(s).value)
    ensures IsPublicIPv4(s, parseIP) <==> parseIP(s).Some? && PublicValue(Value(parseIP(s).value))
  {
    if parseIP(s).Some? { RangesByOctets(parseIP(s).value); }
  }

  lemma RangesByOctets(o: Octets)
    requires Proper(o)
    ensures Value(o) == o.a * 0x100_0000 + o.b * 0x1_0000 + o.c * 0x100 + o.d
    ensures (0x0A00_0000 <= Value(o) <= 0x0AFF_FFFF) <==> o.a == 10
    ensures (0x6440_0000 <= Value(o) <= 0x647F_FFFF) <==> o.a == 100 && 64 <= o.b <= 127
    ensures (0x7F00_0000 <= Value(o) <= 0x7FFF_FFFF) <==> o.a == 127
    ensures (0xA9FE_0000 <= Value(o) <= 0xA9FE_FFFF) <==> o.a == 169 && o.b == 254
    ensures (0xAC10_0000 <= Value(o) <= 0xAC1F_FFFF) <==> o.a == 172 && 16 <= o.b <= 31
    ensures (0xC0A8_0000 <= Value(o) <= 0xC0A8_FFFF) <==> o.a == 192 && o.b == 168
    ensures (0xE000_0000 <= Value(o) <= 0xEFFF_FFFF) <==> 224 <= o.a <= 239
    ensures Value(o) == 0 <==> o == Octets(0, 0, 0, 0)
    ensures Value(o) == 0xFFFF_FFFF <==> o == Octets(255, 255, 255, 255)
  {
  }

  // ---------- numbers ----------

  predicate Listed(s: string) { forall i :: 0 <= i < |s| ==> s[i] in "0123456789" }

  /** Reading digits from the left. */
  function ReadDigits(s: string, before: nat): nat
    requires Listed(s)
  {
    if s == "" then before else assert s[0] in "0123456789"; ReadDigits(s[1..], 10 * before + (s[0] as nat - 48))
  }

  lemma {:induction false} ReadDigitsAppend(s: string, d: char, before: nat)
    requires Listed(s) && d in "0123456789"
    ensures ReadDigits(s + [d], before) == 10 * ReadDigits(s, before) + (d as nat - 48)
  {
    if s == "" {
      assert s + [d] == [d] && [d][1..] == "";
    } else {
      assert (s + [d])[0] == s[0] && (s + [d])[1..] == s[1..] + [d];
      ReadDigitsAppend(s[1..], d, 10 * before + (s[0] as nat - 48));
    }
  }

  lemma {:induction false} DecimalIsReadDigits(s: string)
    requires Listed(s)
    ensures Decimal(s) == ReadDigits(s, 0)
  {
    if s != "" {
      DecimalIsReadDigits(s[..|s| - 1]);
      ReadDigitsAppend(s[..|s| - 1], s[|s| - 1], 0);
      assert s[..|s| - 1] + [s[|s| - 1]] == s;
    }
  }

  predicate SpelledAs(s: string, n: int, sign: string, digits: string) {
    && (sign == "" || sign == "+" || sign == "-") && s == sign + digits
    && digits != "" && Listed(digits)
    && n == if sign == "-" then 0 - ReadDigits(digits, 0) else ReadDigits(digits, 0)
  }

  /** The text spells the number: digits, with an optional sign. */
  ghost predicate Spells(s: string, n: int) { exists sign, digits :: SpelledAs(s, n, sign, digits) }

  /** strconv.Atoi: the number spelled, if it fits 64 bits. */
  lemma AtoiMeansSpelled(s: string, n: int)
    ensures Atoi(s) == Some(n) <==> Spells(s, n) && -0x8000_0000_0000_0000 <= n <= 0x7FFF_FFFF_FFFF_FFFF
  {
    if Atoi(s) == Some(n) { AtoiIsSpelled(s, n); }
    if Spells(s, n) && -0x8000_0000_0000_0000 <= n <= 0x7FFF_FFFF_FFFF_FFFF { SpelledIsAtoi(s, n); }
  }

  lemma AtoiIsSpelled(s: string, n: int)
    requires Atoi(s) == Some(n)
    ensures Spells(s, n) && -0x8000_0000_0000_0000 <= n <= 0x7FFF_FFFF_FFFF_FFFF
  {
    var signed := s != "" && (s[0] == '+' || s[0] == '-');
    var sign, digits := if signed then s[..1] else "", if signed then s[1..] else s;
    DigitsAreListed(digits);
    DecimalIsReadDigits(digits);
    assert s == sign + digits;
    if signed { assert sign == [s[0]]; }
    assert SpelledAs(s, n, sign, digits);
  }

  lemma SpelledIsAtoi(s: string, n: int)
    requires Spells(s, n) && -0x8000_0000_0000_0000 <= n <= 0x7FFF_FFFF_FFFF_FFFF
    ensures Atoi(s) == Some(n)
  {
    var sign, digits :| SpelledAs(s, n, sign, digits);
    SpelledNumber(s, n, sign, digits);
    AtoiBySign(sign, digits);
  }

  lemma SpelledNumber(s: string, n: int, sign: string, digits: string)
    requires SpelledAs(s, n, sign, digits)
    ensures AllDigits(digits) && n == if sign == "-" then 0 - Decimal(digits) else Decimal(digits)
  {
    DigitsAreListed(digits);
    DecimalIsReadDigits(digits);
  }

  lemma AtoiBySign(sign: string, digits: string)
    requires (sign == "" || sign == "+" || sign == "-") && AllDigits(digits)
    ensures sign != "-" && Decimal(digits) <= 0x7FFF_FFFF_FFFF_FFFF ==> Atoi(sign + digits) == Some(Decimal(digits))
    ensures sign == "-" && Decimal(digits) <= 0x8000_0000_0000_0000 ==> Atoi(sign + digits) == Some(0 - Decimal(digits))
  {
    if sign == "" {
      assert sign + digits == digits && IsDigit(digits[0]);
    } else {
      assert (sign + digits)[0] == sign[0] && (sign + digits)[1..] == digits;
    }
  }

  lemma DigitsAreListed(s: string)
    ensures Listed(s) <==> (forall i :: 0 <= i < |s| ==> IsDigit(s[i]))
  {
    forall i | 0 <= i < |s| ensures s[i] in "0123456789" <==> IsDigit(s[i]) { DigitIsListed(s[i]); }
  }

  lemma DigitIsListed(c: char)
    ensures c in "0123456789" <==> IsDigit(c)
  {
    if IsDigit(c) { assert c == "0123456789"[c as int - 48]; }
  }

  /** One argument, spelling a number in the range. */
  ghost predicate OneNumber(args: seq<string>, low: int, high: int) {
    |args| == 1 && exists n :: low <= n <= high && Spells(args[0], n)
  }

  lemma BoundedMeansSpelled(s: string, low: int, high: int)
    requires -0x8000_0000_0000_0000 <= low && high <= 0x7FFF_FFFF_FFFF_FFFF
    ensures IsBoundedInt(s, low, high) <==> exists n :: low <= n <= high && Spells(s, n)
  {
    if Atoi(s).Some? { AtoiMeansSpelled(s, Atoi(s).value); }
    if n :| low <= n <= high && Spells(s, n) { AtoiMeansSpelled(s, n); }
  }

  lemma OneNumberIsBounded(args: seq<string>, low: int, high: int)
    requires -0x8000_0000_0000_0000 <= low && high <= 0x7FFF_FFFF_FFFF_FFFF
    ensures OneNumber(args, low, high) <==> |args| == 1 && IsBoundedInt(args[0], low, high)
  {
    if |args| == 1 { BoundedMeansSpelled(args[0], low, high); }
  }

  // ---------- the directives ----------

  lemma PermittedByShape(name: string, args: seq<string>, ip: string, parseIP: AddressParser)
    ensures Permitted([name] + args, ip, parseIP) <==> ShapeOf(name).Some? && Fits(ShapeOf(name).value, args, ip, parseIP)
  {
    assert ([name] + args)[1..] == args && ([name] + args)[0] == name;
  }

  lemma NumericShapes(name: string)
    ensures name in {"reneg-sec", "connect-timeout", "connect-retry", "sndbuf", "rcvbuf", "explicit-exit-notify"} ==>
      ShapeOf(name) == Some(Number(1, 2147483647))
    ensures name == "verb" ==> ShapeOf(name) == Some(Number(0, 6))
    ensures name == "resolv-retry" ==> ShapeOf(name) == Some(InfiniteOrNumber(1, 2147483647))
  {
  }

  lemma BareDirectives(args: seq<string>, ip: string, parseIP: AddressParser, name: string)
    requires name in {"client", "nobind", "persist-key", "persist-tun", "auth-nocache", "pull", "fast-io"}
    ensures Permitted([name] + args, ip, parseIP) <==> args == []
  {
    assert ([name] + args)[1..] == args;
  }

  lemma DeviceDirectives(args: seq<string>, ip: string, parseIP: AddressParser, name: string)
    requires name in {"dev", "dev-type"}
    ensures Permitted([name] + args, ip, parseIP) <==> args == ["tun"]
  {
    assert ([name] + args)[1..] == args;
  }

  lemma ProtoDirective(args: seq<string>, ip: string, parseIP: AddressParser)
    ensures Permitted(["proto"] + args, ip, parseIP) <==>
      |args| == 1 && args[0] in {"udp", "udp4", "tcp", "tcp4", "tcp-client"}
  {
    assert (["proto"] + args)[1..] == args;
  }

  /** The remote must be the node's own public address. */
  lemma RemoteDirectives(args: seq<string>, ip: string, parseIP: AddressParser)
    requires parseIP(ip).Some? ==> Proper(parseIP(ip).value)
    ensures Permitted(["remote"] + args, ip, parseIP) <==>
      && (|args| == 2 || (|args| == 3 && args[2] in {"udp", "udp4", "tcp", "tcp4", "tcp-client"}))
      && args[0] == ip && parseIP(ip).Some? && PublicValue(Value(parseIP(ip).value))
      && OneNumber([args[1]], 1, 65535)
  {
    assert (["remote"] + args)[1..] == args;
    PublicMeansRanges(ip, parseIP);
    if |args| >= 2 { BoundedMeansSpelled(args[1], 1, 65535); }
    RemoteFits(args, ip, parseIP);
  }

  lemma RemoteFits(args: seq<string>, ip: string, parseIP: AddressParser)
    ensures Permitted(["remote"] + args, ip, parseIP) <==>
      && 2 <= |args| <= 3 && args[0] == ip && IsPublicIPv4(ip, parseIP)
      && IsBoundedInt(args[1], 1, 65535) && (|args| == 3 ==> args[2] in {"udp", "udp4", "tcp", "tcp4", "tcp-client"})
  {
    assert (["remote"] + args)[1..] == args;
  }

  lemma ResolvRetryDirective(args: seq<string>, ip: string, parseIP: AddressParser)
    ensures Permitted(["resolv-retry"] + args, ip, parseIP) <==> args == ["infinite"] || OneNumber(args, 1, 2147483647)
  {
    NumericShapes("resolv-retry");
    PermittedByShape("resolv-retry", args, ip, parseIP);
    OneNumberIsBounded(args, 1, 2147483647);
    assert |args| == 1 ==> args == [args[0]];
  }

  lemma CertificateDirective(args: seq<string>, ip: string, parseIP: AddressParser)
    ensures Permitted(["remote-cert-tls"] + args, ip, parseIP) <==> args == ["server"]
  {
    assert (["remote-cert-tls"] + args)[1..] == args;
  }

  predicate HarmlessChar(c: char) {
    || c in "ABCDEFGHIJKLMNOPQRSTUVWXYZ" || c in "abcdefghijklmnopqrstuvwxyz"
    || c in "0123456789" || c in "_.:+,=/@-"
  }

  /** [A-Za-z0-9_.:+,=/@-]+ */
  predicate Harmless(s: string) { s != "" && forall i :: 0 <= i < |s| ==> HarmlessChar(s[i]) }

  lemma CapitalIsListed(c: char)
    ensures 'A' <= c <= 'Z' <==> c in "ABCDEFGHIJKLMNOPQRSTUVWXYZ"
  {
    if 'A' <= c <= 'Z' { assert c == "ABCDEFGHIJKLMNOPQRSTUVWXYZ"[c as int - 65]; }
  }

  lemma SmallIsListed(c: char)
    ensures 'a' <= c <= 'z' <==> c in "abcdefghijklmnopqrstuvwxyz"
  {
    if 'a' <= c <= 'z' { assert c == "abcdefghijklmnopqrstuvwxyz"[c as int - 97]; }
  }

  lemma SafeTokenIsHarmless(s: string)
    ensures SafeToken(s) <==> Harmless(s)
  {
    forall i | 0 <= i < |s| ensures SafeChar(s[i]) <==> HarmlessChar(s[i]) {
      CapitalIsListed(s[i]);
      SmallIsListed(s[i]);
      DigitIsListed(s[i]);
    }
  }

  lemma CipherTakesToken(name: string)
    requires name in {"cipher", "data-ciphers", "data-ciphers-fallback", "auth", "tls-cipher", "tls-ciphersuites"}
    ensures ShapeOf(name) == Some(Token)
  {
  }

  lemma CipherDirectives(args: seq<string>, ip: string, parseIP: AddressParser, name: string)
    requires name in {"cipher", "data-ciphers", "data-ciphers-fallback", "auth", "tls-cipher", "tls-ciphersuites"}
    ensures Permitted([name] + args, ip, parseIP) <==> |args| == 1 && Harmless(args[0])
  {
    CipherTakesToken(name);
    PermittedByShape(name, args, ip, parseIP);
    if |args| == 1 { SafeTokenIsHarmless(args[0]); }
  }

  lemma CompressionDirectives(args: seq<string>, ip: string, parseIP: AddressParser)
    ensures Permitted(["comp-lzo"] + args, ip, parseIP) <==>
      args == [] || (|args| == 1 && args[0] in {"yes", "no", "adaptive"})
    ensures Permitted(["compress"] + args, ip, parseIP) <==>
      |args| == 1 && args[0] in {"lz4", "lz4-v2", "stub", "stub-v2", "no"}
  {
    assert (["comp-lzo"] + args)[1..] == args && (["compress"] + args)[1..] == args;
  }

  lemma TlsDirectives(args: seq<string>, ip: string, parseIP: AddressParser)
    ensures Permitted(["key-direction"] + args, ip, parseIP) <==> args == ["0"] || args == ["1"]
    ensures Permitted(["tls-version-min"] + args, ip, parseIP) <==> args == ["1.2"] || args == ["1.3"]
  {
    assert (["key-direction"] + args)[1..] == args && (["tls-version-min"] + args)[1..] == args;
  }

  lemma VerbDirective(args: seq<string>, ip: string, parseIP: AddressParser)
    ensures Permitted(["verb"] + args, ip, parseIP) <==> OneNumber(args, 0, 6)
  {
    NumericShapes("verb");
    PermittedByShape("verb", args, ip, parseIP);
    OneNumberIsBounded(args, 0, 6);
  }

  lemma NumericDirectives(args: seq<string>, ip: string, parseIP: AddressParser, name: string)
    requires name in {"reneg-sec", "connect-timeout", "connect-retry", "sndbuf", "rcvbuf", "explicit-exit-notify"}
    ensures Permitted([name] + args, ip, parseIP) <==> OneNumber(args, 1, 2147483647)
  {
    NumericShapes(name);
    PermittedByShape(name, args, ip, parseIP);
    OneNumberIsBounded(args, 1, 2147483647);
  }

  /** The names those rules are about, and no others. */
  predicate KnownName(name: string) {
    || name in {"client", "nobind", "persist-key", "persist-tun", "auth-nocache", "pull", "fast-io"}
    || name in {"dev", "dev-type", "proto", "remote", "resolv-retry", "remote-cert-tls"}
    || name in {"cipher", "data-ciphers", "data-ciphers-fallback", "auth", "tls-cipher", "tls-ciphersuites"}
    || name in {"comp-lzo", "compress", "key-direction", "tls-version-min", "verb"}
    || name in {"reneg-sec", "connect-timeout", "connect-retry", "sndbuf", "rcvbuf", "explicit-exit-notify"}
  }

  lemma PermittedIsKnown(fields: seq<string>, ip: string, parseIP: AddressParser)
    requires Permitted(fields, ip, parseIP)
    ensures KnownName(fields[0])
  {
  }

  // ---------- accepted profiles ----------

  /**
   Every directive of an accepted profile has a known name and satisfies its rule, every block is one of
   five, some directive is a remote, and the size is within one mebibyte: so a directive of any other
   name, wherever it stands, has the profile refused.
   */
  lemma {:induction false} AcceptedUsesKnownNames(profile: string, ip: string, parseIP: AddressParser)
    requires Accepts(profile, ip, parseIP)
    ensures 1 <= ByteSize(profile) <= 1048576
    ensures forall item :: item in ParseLines(Lines(profile)).value ==> Known(item)
    ensures exists item :: item in ParseLines(Lines(profile)).value && item.Directive? && item.fields != [] && item.fields[0] == "remote"
  {
    var items := ParseLines(Lines(profile)).value;
    ItemsOf(profile);
    forall item | item in items ensures Known(item) {
      var k :| 0 <= k < |items| && items[k] == item;
      ItemIsKnown(items[k], ip, parseIP);
    }
    var r :| 0 <= r < |items| && Remote(items[r]);
    assert items[r] in items;
  }

  predicate Known(item: Item) {
    match item
    case Directive(fields) => fields != [] && KnownName(fields[0])
    case Block(name, _) => name in {"ca", "cert", "key", "tls-auth", "tls-crypt"}
  }

  lemma ItemIsKnown(item: Item, ip: string, parseIP: AddressParser)
    requires WellFormed(item) && ItemPermitted(item, ip, parseIP)
    ensures Known(item)
  {
    if item.Directive? { PermittedIsKnown(item.fields, ip, parseIP); }
  }

  /** Blank lines and comments. */
  predicate Comment(line: string) { Blank(line) || (TrimSpace(line) != "" && TrimSpace(line)[0] in "#;") }

  /** They do not count in front of an item, nor between items. */
  lemma CommentsVanish(line: string, rest: seq<string>)
    requires Comment(line)
    ensures ParseLines([line] + rest) == ParseLines(rest)
  {
    TrimSpaceShape(line);
    assert ([line] + rest)[1..] == rest;
  }
}
