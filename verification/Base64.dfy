/** Unpadded standard base64 (RFC 4648, section 4), as the encoding the password hash is stored in. */
module Base64 {
  import opened Common
  import opened Pbkdf2

  /** The alphabet, from number to letter and back. */
  function LetterOf(n: nat): char
    requires n < 64
  {
    if n < 26 then 'A' + n as char
    else if n < 52 then 'a' + (n - 26) as char
    else if n < 62 then '0' + (n - 52) as char
    else if n == 62 then '+' else '/'
  }

  function NumberOf(c: char): (n: Option<nat>)
    ensures n.Some? ==> n.value < 64
  {
    if 'A' <= c <= 'Z' then Some(c as int - 'A' as int)
    else if 'a' <= c <= 'z' then Some(c as int - 'a' as int + 26)
    else if '0' <= c <= '9' then Some(c as int - '0' as int + 52)
    else if c == '+' then Some(62)
    else if c == '/' then Some(63)
    else None
  }

  /** The alphabet of RFC 4648, table 1. */
  function Alphabet(): string { "ABCDEFGHIJKLMNOPQRSTUVWXYZ" + "abcdefghijklmnopqrstuvwxyz" + "0123456789" + "+/" }

  lemma CapitalAt(n: nat)
    requires n < 26
    ensures "ABCDEFGHIJKLMNOPQRSTUVWXYZ"[n] == 'A' + n as char
  {
  }

  lemma SmallAt(n: nat)
    requires n < 26
    ensures "abcdefghijklmnopqrstuvwxyz"[n] == 'a' + n as char
  {
  }

  lemma DigitAt(n: nat)
    requires n < 10
    ensures "0123456789"[n] == '0' + n as char
  {
  }

  /** A number's letter is the one at its place in the alphabet, and a letter's number is that place. */
  lemma AlphabetByNumber(n: nat)
    requires n < 64
    ensures |Alphabet()| == 64 && LetterOf(n) == Alphabet()[n] && NumberOf(Alphabet()[n]) == Some(n)
  {
    if n < 26 { CapitalAt(n); } else if n < 52 { SmallAt(n - 26); } else if n < 62 { DigitAt(n - 52); }
    NumberOfLetter(n);
  }

  function Letter(v: bv8): char
    requires v < 64
  {
    LetterOf(v as nat)
  }

  function Sextet(c: char): Option<bv8> {
    var n := NumberOf(c);
    if n.None? then None else Some(n.value as bv8)
  }

  lemma NumberOfLetter(n: nat)
    requires n < 64
    ensures NumberOf(LetterOf(n)) == Some(n)
    ensures LetterOf(n) != '\r' && LetterOf(n) != '\n'
  {
  }

  lemma SextetOfLetter(v: bv8)
    requires v < 64
    ensures Sextet(Letter(v)) == Some(v)
    ensures Letter(v) != '\r' && Letter(v) != '\n'
  {
    NumberOfLetter(v as nat);
  }

  /** The four sextets of three octets. */
  function Split3(a: bv8, b: bv8, c: bv8): (bv8, bv8, bv8, bv8) {
    (a >> 2, ((a & 3) << 4) | (b >> 4), ((b & 15) << 2) | (c >> 6), c & 63)
  }

  function Merge4(p: bv8, q: bv8, r: bv8, s: bv8): (bv8, bv8, bv8) {
    ((p << 2) | (q >> 4), (q << 4) | (r >> 2), (r << 6) | s)
  }

  lemma MergeOfSplit(a: bv8, b: bv8, c: bv8)
    ensures var t := Split3(a, b, c); t.0 < 64 && t.1 < 64 && t.2 < 64 && t.3 < 64
    ensures var t := Split3(a, b, c); Merge4(t.0, t.1, t.2, t.3) == (a, b, c)
  {
  }

  /** Four sextets and three octets are the same 24-bit number, most significant part first. */
  lemma SplitKeepsValue(a: bv8, b: bv8, c: bv8)
    ensures var t := Split3(a, b, c);
      ((((t.0 as bv32) << 18) | ((t.1 as bv32) << 12)) | ((t.2 as bv32) << 6)) | (t.3 as bv32)
      == (((a as bv32) << 16) | ((b as bv32) << 8)) | (c as bv32)
  {
  }

  /** RawStdEncoding.EncodeToString. */
  function Encode(data: Bytes): string {
    if data == [] then ""
    else if |data| == 1 then
      MergeOfSplit(data[0], 0, 0);
      var t := Split3(data[0], 0, 0);
      [Letter(t.0), Letter(t.1)]
    else if |data| == 2 then
      MergeOfSplit(data[0], data[1], 0);
      var t := Split3(data[0], data[1], 0);
      [Letter(t.0), Letter(t.1), Letter(t.2)]
    else
      MergeOfSplit(data[0], data[1], data[2]);
      var t := Split3(data[0], data[1], data[2]);
      [Letter(t.0), Letter(t.1), Letter(t.2), Letter(t.3)] + Encode(data[3..])
  }

  function Sextets(s: string): Option<Bytes> {
    if s == "" then Some([])
    else
      var v, rest := Sextet(s[0]), Sextets(s[1..]);
      if v.None? || rest.None? then None else Some([v.value] + rest.value)
  }

  function Octets(v: Bytes): Option<Bytes> {
    if v == [] then Some([])
    else if |v| == 1 then None
    else if |v| == 2 then Some([Merge4(v[0], v[1], 0, 0).0])
    else if |v| == 3 then var t := Merge4(v[0], v[1], v[2], 0); Some([t.0, t.1])
    else
      var t, rest := Merge4(v[0], v[1], v[2], v[3]), Octets(v[4..]);
      if rest.None? then None else Some([t.0, t.1, t.2] + rest.value)
  }

  function WithoutLineBreaks(s: string): string {
    if s == "" then ""
    else if s[0] == '\r' || s[0] == '\n' then WithoutLineBreaks(s[1..])
    else [s[0]] + WithoutLineBreaks(s[1..])
  }

  /** RawStdEncoding.DecodeString: line breaks are skipped, left-over bits are not checked. */
  function Decode(s: string): Option<Bytes> {
    var v := Sextets(WithoutLineBreaks(s));
    if v.None? then None else Octets(v.value)
  }

  function Letters(v: Bytes): (s: string)
    requires forall i :: 0 <= i < |v| ==> v[i] < 64
    ensures |s| == |v| && forall i :: 0 <= i < |v| ==> s[i] == Letter(v[i])
  {
    seq(|v|, i requires 0 <= i < |v| => Letter(v[i]))
  }

  /** Letters read back as the sextets they stand for. */
  lemma {:induction false} ReadLetters(v: Bytes)
    requires forall i :: 0 <= i < |v| ==> v[i] < 64
    ensures var s := Letters(v); Sextets(s) == Some(v) && WithoutLineBreaks(s) == s
  {
    if v != [] {
      SextetOfLetter(v[0]);
      ReadLetters(v[1..]);
      assert Letters(v)[1..] == Letters(v[1..]);
      assert [v[0]] + v[1..] == v;
    }
  }

  /** The sextets of the encoding. */
  function EncodedSextets(data: Bytes): (v: Bytes)
    ensures forall i :: 0 <= i < |v| ==> v[i] < 64
  {
    if data == [] then []
    else
      var b, c := if |data| > 1 then data[1] else 0, if |data| > 2 then data[2] else 0;
      MergeOfSplit(data[0], b, c);
      var t := Split3(data[0], b, c);
      if |data| == 1 then [t.0, t.1]
      else if |data| == 2 then [t.0, t.1, t.2]
      else [t.0, t.1, t.2, t.3] + EncodedSextets(data[3..])
  }

  lemma {:induction false} EncodeIsLetters(data: Bytes)
    ensures Encode(data) == Letters(EncodedSextets(data))
  {
    if |data| >= 3 { EncodeIsLetters(data[3..]); }
  }

  lemma {:induction false} OctetsOfEncoded(data: Bytes)
    ensures Octets(EncodedSextets(data)) == Some(data)
  {
    if data != [] {
      MergeOfSplit(data[0], if |data| > 1 then data[1] else 0, if |data| > 2 then data[2] else 0);
      if |data| >= 3 {
        OctetsOfEncoded(data[3..]);
        var v := EncodedSextets(data);
        assert v[4..] == EncodedSextets(data[3..]);
        assert data == [data[0], data[1], data[2]] + data[3..];
      } else if |data| == 2 {
        assert data == [data[0], data[1]];
      } else {
        assert data == [data[0]];
      }
    }
  }

  /** Three octets become the four letters whose numbers spell the same 24-bit number. */
  lemma EncodedTriple(a: bv8, b: bv8, c: bv8) returns (p: bv8, q: bv8, r: bv8, s: bv8)
    ensures p < 64 && q < 64 && r < 64 && s < 64
    ensures ((((p as bv32) << 18) | ((q as bv32) << 12)) | ((r as bv32) << 6)) | (s as bv32)
      == (((a as bv32) << 16) | ((b as bv32) << 8)) | (c as bv32)
    ensures Encode([a, b, c]) == [LetterAt(p), LetterAt(q), LetterAt(r), LetterAt(s)]
  {
    MergeOfSplit(a, b, c);
    SplitKeepsValue(a, b, c);
    var t := Split3(a, b, c);
    p, q, r, s := t.0, t.1, t.2, t.3;
    LetterIsAt(p);
    LetterIsAt(q);
    LetterIsAt(r);
    LetterIsAt(s);
    assert [a, b, c][3..] == [] && Encode([]) == "";
  }

  /** The letter at a place of the alphabet. */
  function LetterAt(v: bv8): char
    requires v < 64
  {
    Alphabet()[v as nat]
  }

  lemma LetterIsAt(v: bv8)
    requires v < 64
    ensures Letter(v) == LetterAt(v)
  {
    AlphabetByNumber(v as nat);
  }

  /** Groups of three octets are encoded one by one. */
  lemma {:induction false} EncodeByGroups(a: Bytes, b: Bytes)
    requires |a| % 3 == 0
    ensures Encode(a + b) == Encode(a) + Encode(b)
  {
    if a == [] {
      assert a + b == b;
    } else {
      EncodeByGroups(a[3..], b);
      assert (a + b)[3..] == a[3..] + b && (a + b)[..3] == a[..3];
      FirstGroup(a);
      FirstGroup(a + b);
    }
  }

  lemma FirstGroup(a: Bytes)
    requires |a| >= 3
    ensures Encode(a) == Encode(a[..3]) + Encode(a[3..])
  {
    assert a[..3][3..] == [] && Encode(a[..3])[..] == Encode(a[..3]);
  }

  /** A shorter last group is encoded as if filled up with zeros, and the surplus letters are left out. */
  lemma LastGroup(a: bv8, b: bv8)
    ensures Encode([a]) == Encode([a, 0, 0])[..2]
    ensures Encode([a, b]) == Encode([a, b, 0])[..3]
  {
    assert [a, 0, 0][3..] == [] && [a, b, 0][3..] == [];
  }

  /** Decoding undoes encoding, for every byte string. */
  lemma DecodeOfEncode(data: Bytes)
    ensures Decode(Encode(data)) == Some(data)
    ensures data != [] ==> Encode(data) != ""
  {
    EncodeIsLetters(data);
    ReadLetters(EncodedSextets(data));
    OctetsOfEncoded(data);
  }
}
