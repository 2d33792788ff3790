/**
 The string operations of Go's `strings` and `strconv` packages that the core files
 rely on, over Unicode text, with the round-trip facts their callers need.
 */
module Text {
  import opened Common

  // ---------- white space ----------

  /** unicode.IsSpace: the White_Space property. */
  predicate IsSpace(c: char) {
    || '\t' <= c <= '\r'
    || c in " \U{0085}\U{00A0}\U{1680}\U{2028}\U{2029}\U{202F}\U{205F}\U{3000}"
    || '\U{2000}' <= c <= '\U{200A}'
  }

  predicate Blank(s: string) {
    forall i :: 0 <= i < |s| ==> IsSpace(s[i])
  }

  predicate Solid(s: string) {
    s != "" && forall i :: 0 <= i < |s| ==> !IsSpace(s[i])
  }

  function TrimLeft(s: string): string {
    if s != "" && IsSpace(s[0]) then TrimLeft(s[1..]) else s
  }

  function TrimRight(s: string): string {
    if s != "" && IsSpace(s[|s| - 1]) then TrimRight(s[..|s| - 1]) else s
  }

  function TrimSpace(s: string): string { TrimRight(TrimLeft(s)) }

  /** A string that neither starts nor ends with white space (the shape TrimSpace returns). */
  predicate Trimmed(s: string) {
    s == "" || (!IsSpace(s[0]) && !IsSpace(s[|s| - 1]))
  }

  lemma {:induction false} TrimLeftShape(s: string)
    ensures TrimLeft(s) == "" || !IsSpace(TrimLeft(s)[0])
    ensures TrimLeft(s) == "" <==> Blank(s)
    ensures |TrimLeft(s)| <= |s| && TrimLeft(s) == s[|s| - |TrimLeft(s)|..]
    ensures TrimLeft(s) != "" ==> TrimLeft(s)[|TrimLeft(s)| - 1] == s[|s| - 1]
  {
    if s != "" && IsSpace(s[0]) {
      TrimLeftShape(s[1..]);
      assert Blank(s) <==> Blank(s[1..]) by {
        if Blank(s[1..]) {
          forall i | 0 <= i < |s| ensures IsSpace(s[i]) { if i > 0 { assert s[1..][i - 1] == s[i]; } }
        }
      }
    }
  }

  lemma {:induction false} TrimRightShape(s: string)
    ensures |TrimRight(s)| <= |s| && TrimRight(s) == s[..|TrimRight(s)|]
    ensures TrimRight(s) == "" || !IsSpace(TrimRight(s)[|TrimRight(s)| - 1])
    ensures s != "" && !IsSpace(s[0]) ==> TrimRight(s) != "" && TrimRight(s)[0] == s[0]
    ensures TrimRight(s) == "" ==> Blank(s)
  {
    if s != "" && IsSpace(s[|s| - 1]) {
      TrimRightShape(s[..|s| - 1]);
      if Blank(s[..|s| - 1]) {
        forall i | 0 <= i < |s| ensures IsSpace(s[i]) { if i < |s| - 1 { assert s[..|s| - 1][i] == s[i]; } }
      }
    }
  }

  /** TrimSpace yields a trimmed string, is the identity on trimmed ones, and empties exactly the blank ones. */
  lemma TrimSpaceShape(s: string)
    ensures Trimmed(TrimSpace(s))
    ensures TrimSpace(s) == "" <==> Blank(s)
    ensures Trimmed(s) ==> TrimSpace(s) == s
    ensures forall c :: c in TrimSpace(s) ==> c in s
  {
    TrimLeftShape(s);
    TrimRightShape(TrimLeft(s));
  }

  /** What it cuts off on either side is white space only. */
  lemma TrimSpaceCuts(s: string) returns (before: string, after: string)
    ensures s == before + TrimSpace(s) + after && Blank(before) && Blank(after)
  {
    var left := TrimLeft(s);
    var n := |TrimRight(left)|;
    TrimLeftShape(s);
    TrimRightShape(left);
    before, after := s[..|s| - |left|], left[n..];
    TrimLeftCuts(s);
    TrimRightCuts(left);
    assert left == left[..n] + after;
    assert s == before + left;
  }

  lemma {:induction false} TrimLeftCuts(s: string)
    ensures |TrimLeft(s)| <= |s| && Blank(s[..|s| - |TrimLeft(s)|])
  {
    if s != "" && IsSpace(s[0]) {
      TrimLeftCuts(s[1..]);
      var n := |s| - |TrimLeft(s)|;
      assert forall i :: 0 < i < n ==> s[i] == s[1..][..n - 1][i - 1];
    }
  }

  lemma {:induction false} TrimRightCuts(s: string)
    ensures |TrimRight(s)| <= |s| && Blank(s[|TrimRight(s)|..])
  {
    if s != "" && IsSpace(s[|s| - 1]) {
      var t := s[..|s| - 1];
      TrimRightCuts(t);
      var n := |TrimRight(s)|;
      assert forall i :: n <= i < |t| ==> s[i] == t[n..][i - n];
    }
  }

  /** A trailing white-space character never changes what TrimSpace returns. */
  lemma {:induction false} TrimSpaceDropsTail(s: string, c: char)
    requires IsSpace(c)
    ensures TrimSpace(s + [c]) == TrimSpace(s)
  {
    TrimLeftAppend(s, c);
    if TrimLeft(s) == "" {
      assert TrimLeft(s + [c]) == "";
    } else {
      assert (TrimLeft(s) + [c])[..|TrimLeft(s)|] == TrimLeft(s);
    }
  }

  lemma {:induction false} TrimLeftAppend(s: string, c: char)
    requires IsSpace(c)
    ensures TrimLeft(s + [c]) == if TrimLeft(s) == "" then "" else TrimLeft(s) + [c]
  {
    if s == "" {
      assert s + [c] == [c];
      assert TrimLeft([c]) == TrimLeft([c][1..]);
    } else if IsSpace(s[0]) {
      TrimLeftAppend(s[1..], c);
      assert (s + [c])[1..] == s[1..] + [c];
    }
  }

  // ---------- fields ----------

  /** The length of the longest prefix without white space. */
  function WordLength(s: string): (n: nat)
    ensures n <= |s|
    ensures forall i :: 0 <= i < n ==> !IsSpace(s[i])
    ensures n < |s| ==> IsSpace(s[n])
  {
    if s == "" || IsSpace(s[0]) then 0 else 1 + WordLength(s[1..])
  }

  /** strings.Fields: the maximal runs of non-space characters. */
  function Fields(s: string): seq<string> {
    if s == "" then []
    else if IsSpace(s[0]) then Fields(s[1..])
    else
      var n := WordLength(s);
      [s[..n]] + Fields(s[n..])
  }

  predicate AllSolid(fields: seq<string>) {
    forall i :: 0 <= i < |fields| ==> Solid(fields[i])
  }

  lemma {:induction false} FieldsAreSolid(s: string)
    ensures AllSolid(Fields(s))
    ensures Fields(s) == [] <==> Blank(s)
    ensures s != "" && !IsSpace(s[0]) ==> Fields(s) != [] && Fields(s)[0][0] == s[0]
    decreases |s|
  {
    if s == "" {
    } else if IsSpace(s[0]) {
      FieldsAreSolid(s[1..]);
      assert Blank(s) <==> Blank(s[1..]) by {
        if Blank(s[1..]) {
          forall i | 0 <= i < |s| ensures IsSpace(s[i]) { if i > 0 { assert s[1..][i - 1] == s[i]; } }
        }
      }
    } else {
      var n := WordLength(s);
      FieldsAreSolid(s[n..]);
      assert !IsSpace(s[0]) && !Blank(s);
    }
  }

  /** The words of a text are its first run of non-space characters, and the words behind it; white space in front is none. */
  lemma {:induction false} FieldsInOrder(gap: string, word: string, rest: string)
    requires Blank(gap) && Solid(word) && (rest == "" || IsSpace(rest[0]))
    ensures Fields(gap + (word + rest)) == [word] + Fields(rest)
    ensures Fields(gap) == []
  {
    var s := gap + (word + rest);
    if gap == "" {
      assert s == word + rest;
      WordLengthOfPrefix(word, rest);
      assert s[..|word|] == word && s[|word|..] == rest;
    } else {
      assert s[1..] == gap[1..] + (word + rest);
      FieldsInOrder(gap[1..], word, rest);
    }
  }

  /** strings.Join. */
  function Join(parts: seq<string>, sep: string): string {
    if parts == [] then ""
    else if |parts| == 1 then parts[0]
    else parts[0] + sep + Join(parts[1..], sep)
  }

  lemma {:induction false} WordLengthOfPrefix(word: string, rest: string)
    requires forall i :: 0 <= i < |word| ==> !IsSpace(word[i])
    requires rest == "" || IsSpace(rest[0])
    ensures WordLength(word + rest) == |word|
  {
    if word == "" {
      assert word + rest == rest;
    } else {
      assert (word + rest)[1..] == word[1..] + rest;
      WordLengthOfPrefix(word[1..], rest);
    }
  }

  /** Splitting a space-joined list of solid words gives the words back. */
  lemma {:induction false} FieldsOfJoin(fields: seq<string>)
    requires AllSolid(fields)
    ensures Fields(Join(fields, " ")) == fields
    ensures Trimmed(Join(fields, " "))
    ensures fields != [] ==> Join(fields, " ") != "" && Join(fields, " ")[0] == fields[0][0]
    ensures forall c :: c in Join(fields, " ") && IsSpace(c) ==> c == ' '
  {
    if fields == [] {
    } else if |fields| == 1 {
      var w := fields[0];
      WordLengthOfPrefix(w, "");
      assert w + "" == w;
      assert w[..|w|] == w && w[|w|..] == "";
    } else {
      var w, rest := fields[0], Join(fields[1..], " ");
      FieldsOfJoin(fields[1..]);
      var s := Join(fields, " ");
      assert s == w + (" " + rest);
      WordLengthOfPrefix(w, " " + rest);
      assert s[..|w|] == w && s[|w|..] == " " + rest;
      assert (" " + rest)[1..] == rest;
      assert s[|s| - 1] == rest[|rest| - 1];
    }
  }

  // ---------- lines ----------

  /** strings.Split on a one-character separator. */
  function Split(s: string, sep: char): (parts: seq<string>)
    ensures |parts| >= 1
  {
    if s == "" then [""]
    else
      var tail := Split(s[1..], sep);
      if s[0] == sep then [""] + tail else [[s[0]] + tail[0]] + tail[1..]
  }

  lemma {:induction false} SplitPartsLackSeparator(s: string, sep: char)
    ensures forall p :: p in Split(s, sep) ==> sep !in p
  {
    if s != "" {
      SplitPartsLackSeparator(s[1..], sep);
      var tail := Split(s[1..], sep);
      forall p | p in Split(s, sep) ensures sep !in p {
        if s[0] == sep {
          assert p == "" || p in tail;
        } else {
          assert p == [s[0]] + tail[0] || p in tail[1..];
          assert tail[0] in tail;
        }
      }
    }
  }

  lemma {:induction false} SplitPrepend(line: string, rest: string, sep: char)
    requires sep !in line
    ensures Split(line + [sep] + rest, sep) == [line] + Split(rest, sep)
  {
    var s := line + [sep] + rest;
    if line == "" {
      assert s[1..] == rest;
    } else {
      assert s[1..] == line[1..] + [sep] + rest;
      SplitPrepend(line[1..], rest, sep);
      assert [s[0]] + line[1..] == line;
    }
  }

  /** Every line followed by a newline: the text the validator prints. */
  function Unlines(lines: seq<string>): string {
    if lines == [] then "" else lines[0] + "\n" + Unlines(lines[1..])
  }

  lemma {:induction false} UnlinesIsJoin(lines: seq<string>)
    requires lines != []
    ensures Unlines(lines) == Join(lines, "\n") + "\n"
  {
    if |lines| > 1 {
      UnlinesIsJoin(lines[1..]);
    }
  }

  lemma {:induction false} UnlinesConcat(a: seq<string>, b: seq<string>)
    ensures Unlines(a + b) == Unlines(a) + Unlines(b)
  {
    if a == [] {
      assert a + b == b;
    } else {
      UnlinesConcat(a[1..], b);
      assert (a + b)[1..] == a[1..] + b;
    }
  }

  lemma {:induction false} SplitWhole(s: string, sep: char)
    requires sep !in s
    ensures Split(s, sep) == [s]
  {
    if s != "" {
      SplitWhole(s[1..], sep);
      assert [s[0]] + s[1..] == s;
    }
  }

  /** The length of the longest prefix without the separator. */
  function BeforeSeparator(s: string, sep: char): (n: nat)
    ensures n <= |s| && sep !in s[..n] && (n < |s| ==> s[n] == sep)
  {
    if s == "" || s[0] == sep then 0
    else
      var n := 1 + BeforeSeparator(s[1..], sep);
      assert s[..n] == [s[0]] + s[1..][..n - 1];
      n
  }

  /** A part stands in the text between separators, or between one and an end of the text. */
  predicate StandsIn(s: string, before: string, part: string, after: string, sep: char) {
    && s == before + part + after && sep !in part
    && (before == "" || before[|before| - 1] == sep) && (after == "" || after[0] == sep)
  }

  /** Every part of a split does. */
  lemma {:induction false} PartStands(s: string, part: string, sep: char) returns (before: string, after: string)
    requires part in Split(s, sep)
    ensures StandsIn(s, before, part, after, sep)
    decreases |s|
  {
    var n := BeforeSeparator(s, sep);
    if n == |s| {
      assert s[..n] == s;
      SplitWhole(s, sep);
      before, after := "", "";
    } else {
      var line, rest := s[..n], s[n + 1..];
      FirstPart(s, sep);
      if part == line {
        before, after := "", s[n..];
      } else {
        before, after := PartStands(rest, part, sep);
        Shift(s, n, before, part, after, sep);
        before := s[..n + 1] + before;
      }
    }
  }

  lemma FirstPart(s: string, sep: char)
    requires BeforeSeparator(s, sep) < |s|
    ensures var n := BeforeSeparator(s, sep); Split(s, sep) == [s[..n]] + Split(s[n + 1..], sep)
  {
    var n := BeforeSeparator(s, sep);
    assert s == s[..n] + [sep] + s[n + 1..];
    SplitPrepend(s[..n], s[n + 1..], sep);
  }

  lemma Shift(s: string, n: nat, before: string, part: string, after: string, sep: char)
    requires n < |s| && s[n] == sep && StandsIn(s[n + 1..], before, part, after, sep)
    ensures StandsIn(s, s[..n + 1] + before, part, after, sep)
  {
    assert s == s[..n + 1] + s[n + 1..];
    assert s == (s[..n + 1] + before) + part + after;
  }

  lemma SeparatorIsFound(s: string, sep: char)
    requires s != "" && s[|s| - 1] == sep
    ensures BeforeSeparator(s, sep) < |s|
  {
    assert s[..|s|] == s && s[|s| - 1] in s;
  }

  /** And everything that does is a part of the split. */
  lemma {:induction false} StandingIsPart(s: string, before: string, part: string, after: string, sep: char)
    requires StandsIn(s, before, part, after, sep)
    ensures part in Split(s, sep)
    decreases |before|
  {
    if before == "" {
      if after == "" {
        assert s == part;
        SplitWhole(part, sep);
      } else {
        assert s == part + [sep] + after[1..];
        SplitPrepend(part, after[1..], sep);
      }
    } else {
      var n := BeforeSeparator(before, sep);
      SeparatorIsFound(before, sep);
      var line, more := before[..n], before[n + 1..];
      assert before == line + [sep] + more;
      assert s == line + [sep] + (more + part + after);
      SplitPrepend(line, more + part + after, sep);
      if more != "" { assert more[|more| - 1] == before[|before| - 1]; }
      StandingIsPart(more + part + after, more, part, after, sep);
    }
  }

  /** Splitting what Unlines printed gives the lines back, plus the empty remainder. */
  lemma {:induction false} SplitOfUnlines(lines: seq<string>)
    requires forall l :: l in lines ==> '\n' !in l
    ensures Split(Unlines(lines), '\n') == lines + [""]
  {
    if lines == [] {
    } else {
      SplitOfUnlines(lines[1..]);
      SplitPrepend(lines[0], Unlines(lines[1..]), '\n');
      assert lines == [lines[0]] + lines[1..];
    }
  }

  // ---------- CRLF ----------

  /** strings.ReplaceAll(s, "\r\n", "\n"). */
  function ReplaceCRLF(s: string): string {
    if s == "" then ""
    else if |s| >= 2 && s[0] == '\r' && s[1] == '\n' then "\n" + ReplaceCRLF(s[2..])
    else [s[0]] + ReplaceCRLF(s[1..])
  }

  predicate EndsInCR(line: string) { line != "" && line[|line| - 1] == '\r' }

  function ChopCR(line: string): string {
    if EndsInCR(line) then line[..|line| - 1] else line
  }

  function ChopAll(lines: seq<string>): (r: seq<string>)
    ensures |r| == |lines|
    ensures forall i :: 0 <= i < |lines| ==> r[i] == ChopCR(lines[i])
  {
    seq(|lines|, i requires 0 <= i < |lines| => ChopCR(lines[i]))
  }

  lemma {:induction false} ReplaceCRLFPrepend(line: string, rest: string)
    requires '\n' !in line
    ensures ReplaceCRLF(line + "\n" + rest) == ChopCR(line) + "\n" + ReplaceCRLF(rest)
  {
    var s, tail := line + "\n" + rest, if line == "" then "" else line[1..];
    if line == "" {
      assert s == "\n" + rest;
      ReplaceCRLFStep("\n" + rest);
      assert ("\n" + rest)[1..] == rest;
    } else if |line| == 1 && line[0] == '\r' {
      assert s[0] == '\r' && s[1] == '\n' && s[2..] == rest;
      assert ChopCR(line) == "";
    } else {
      assert s[1..] == tail + "\n" + rest && s[0] == line[0];
      assert !(s[0] == '\r' && s[1] == '\n') by { if |line| > 1 { assert s[1] == line[1] && line[1] in line; } }
      ReplaceCRLFStep(s);
      ReplaceCRLFPrepend(tail, rest);
      ChopCRPrepend(line);
      assert [s[0]] + (ChopCR(tail) + "\n" + ReplaceCRLF(rest)) == ([s[0]] + ChopCR(tail)) + "\n" + ReplaceCRLF(rest);
    }
  }

  lemma ReplaceCRLFStep(s: string)
    requires s != "" && !(|s| >= 2 && s[0] == '\r' && s[1] == '\n')
    ensures ReplaceCRLF(s) == [s[0]] + ReplaceCRLF(s[1..])
  {
  }

  lemma ChopCRPrepend(line: string)
    requires |line| > 1 || (|line| == 1 && line[0] != '\r')
    ensures ChopCR(line) == [line[0]] + ChopCR(line[1..])
  {
    assert |line| > 1 ==> line[1..][|line| - 2] == line[|line| - 1];
  }

  /** On printed text, CRLF replacement removes one '\r' from the end of every line that has one. */
  lemma {:induction false} ReplaceCRLFOfUnlines(lines: seq<string>)
    requires forall l :: l in lines ==> '\n' !in l
    ensures ReplaceCRLF(Unlines(lines)) == Unlines(ChopAll(lines))
  {
    if lines != [] {
      ReplaceCRLFOfUnlines(lines[1..]);
      ReplaceCRLFPrepend(lines[0], Unlines(lines[1..]));
      assert ChopAll(lines)[1..] == ChopAll(lines[1..]);
    }
  }

  // ---------- numbers and sizes ----------

  predicate IsDigit(c: char) { '0' <= c <= '9' }

  predicate AllDigits(s: string) { s != "" && forall i :: 0 <= i < |s| ==> IsDigit(s[i]) }

  function Decimal(s: string): nat
    requires forall i :: 0 <= i < |s| ==> IsDigit(s[i])
  {
    if s == "" then 0
    else assert IsDigit(s[|s| - 1]); 10 * Decimal(s[..|s| - 1]) + (s[|s| - 1] as int - '0' as int)
  }

  const MAX_INT := 0x7FFF_FFFF_FFFF_FFFF

  /** strconv.Atoi with a 64-bit int: an optional sign, digits, and no overflow. */
  function Atoi(s: string): Option<int> {
    var signed := s != "" && (s[0] == '+' || s[0] == '-');
    var digits := if signed then s[1..] else s;
    if !AllDigits(digits) then None
    else if signed && s[0] == '-' then
      if Decimal(digits) > MAX_INT + 1 then None else Some(0 - Decimal(digits) as int)
    else if Decimal(digits) > MAX_INT then None
    else Some(Decimal(digits))
  }

  function Utf8Size(c: char): nat {
    if c < '\U{0080}' then 1 else if c < '\U{0800}' then 2 else if c < '\U{10000}' then 3 else 4
  }

  /** len(s) of the UTF-8 string. */
  function ByteSize(s: string): nat {
    if s == "" then 0 else Utf8Size(s[0]) + ByteSize(s[1..])
  }

  predicate HasPrefix(s: string, prefix: string) {
    |prefix| <= |s| && s[..|prefix|] == prefix
  }
}
