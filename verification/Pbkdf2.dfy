/**
 Password-based key derivation: the nested in-place XOR loops of the state store against
 PBKDF2 of RFC 8018, section 5.2. HMAC-SHA256 is any function with 32-byte results.
 */
module Pbkdf2 {
  import opened Common

  type Bytes = seq<bv8>

  const HASH_LEN := 32

  ghost predicate IsPrf(f: (Bytes, Bytes) -> Bytes) { forall key, text :: |f(key, text)| == HASH_LEN }

  type Prf = f: (Bytes, Bytes) -> Bytes | IsPrf(f) ghost witness (key: Bytes, text: Bytes) => seq(HASH_LEN, _ => 0)

  // ---------- RFC 8018, section 5.2 ----------

  function Xor(a: Bytes, b: Bytes): (r: Bytes)
    requires |a| == |b|
    ensures |r| == |a|
    ensures forall i :: 0 <= i < |a| ==> r[i] == a[i] ^ b[i]
  {
    seq(|a|, i requires 0 <= i < |a| => a[i] ^ b[i])
  }

  /** INT(i): a four-octet encoding, most significant octet first. */
  function Int4(i: nat): Bytes {
    [(i / 0x100_0000 % 256) as bv8, (i / 0x1_0000 % 256) as bv8, (i / 0x100 % 256) as bv8, (i % 256) as bv8]
  }

  /** It is the four digits, to the base 256 and most significant first, of the number modulo 2^32. */
  lemma Int4OfDigits(i: nat, a: nat, b: nat, c: nat, d: nat)
    requires a < 256 && b < 256 && c < 256 && d < 256
    requires i % 0x1_0000_0000 == ((a * 256 + b) * 256 + c) * 256 + d
    ensures Int4(i) == [a as bv8, b as bv8, c as bv8, d as bv8]
  {
    DigitsOf(i, a, b, c, d);
  }

  lemma DigitsOf(i: nat, a: nat, b: nat, c: nat, d: nat)
    requires a < 256 && b < 256 && c < 256 && d < 256
    requires i % 0x1_0000_0000 == ((a * 256 + b) * 256 + c) * 256 + d
    ensures i / 0x100_0000 % 256 == a && i / 0x1_0000 % 256 == b && i / 0x100 % 256 == c && i % 256 == d
  {
    var x := i / 0x1_0000_0000 * 256 + a;
    var y := x * 256 + b;
    var z := y * 256 + c;
    assert i == z * 256 + d;
    LastDigit(i / 0x1_0000_0000, a);
    LastDigit(x, b);
    LastDigit(y, c);
    LastDigit(z, d);
    DigitsByShift(i);
  }

  lemma LastDigit(x: nat, d: nat)
    requires d < 256
    ensures (x * 256 + d) / 256 == x && (x * 256 + d) % 256 == d
  {
  }

  lemma DigitsByShift(i: nat)
    ensures i / 0x1_0000 == i / 0x100 / 256 && i / 0x100_0000 == i / 0x1_0000 / 256
  {
  }

  /** U_c. */
  function U(prf: Prf, password: Bytes, salt: Bytes, block: nat, c: nat): (u: Bytes)
    requires c >= 1
    ensures |u| == HASH_LEN
    decreases c
  {
    if c == 1 then prf(password, salt + Int4(block)) else prf(password, U(prf, password, salt, block, c - 1))
  }

  /** F (P, S, c, i): U_1 xor ... xor U_c. */
  function F(prf: Prf, password: Bytes, salt: Bytes, c: nat, block: nat): (t: Bytes)
    requires c >= 1
    ensures |t| == HASH_LEN
    decreases c
  {
    if c == 1 then U(prf, password, salt, block, 1)
    else Xor(F(prf, password, salt, c - 1, block), U(prf, password, salt, block, c))
  }

  /** T_1 || ... || T_l. */
  function Blocks(prf: Prf, password: Bytes, salt: Bytes, c: nat, l: nat): (b: Bytes)
    requires c >= 1
    ensures |b| == l * HASH_LEN
  {
    if l == 0 then [] else Blocks(prf, password, salt, c, l - 1) + F(prf, password, salt, c, l)
  }

  /** The largest key the RFC allows. */
  const MAX_KEY := 0xFFFF_FFFF * HASH_LEN

  /** DK: the first dkLen octets of T_1 || ... || T_l with l = ceil(dkLen / hLen). */
  function DerivedKey(prf: Prf, password: Bytes, salt: Bytes, c: nat, dkLen: nat): (dk: Bytes)
    requires c >= 1 && 1 <= dkLen <= MAX_KEY
    ensures |dk| == dkLen
  {
    var l := (dkLen + HASH_LEN - 1) / HASH_LEN;
    Blocks(prf, password, salt, c, l)[..dkLen]
  }

  /** More blocks extend fewer blocks. */
  lemma {:induction false} BlocksExtend(prf: Prf, password: Bytes, salt: Bytes, c: nat, k: nat, l: nat)
    requires c >= 1 && k <= l
    ensures |Blocks(prf, password, salt, c, k)| <= |Blocks(prf, password, salt, c, l)|
    ensures Blocks(prf, password, salt, c, l)[..k * HASH_LEN] == Blocks(prf, password, salt, c, k)
  {
    var small := Blocks(prf, password, salt, c, k);
    if k == l {
      assert small[..k * HASH_LEN] == small;
    } else {
      BlocksExtend(prf, password, salt, c, k, l - 1);
      var before := Blocks(prf, password, salt, c, l - 1);
      assert (before + F(prf, password, salt, c, l))[..k * HASH_LEN] == before[..k * HASH_LEN];
    }
  }

  /** A shorter key is a prefix of a longer one. */
  lemma ShorterKeyIsPrefix(prf: Prf, password: Bytes, salt: Bytes, c: nat, short: nat, long: nat)
    requires c >= 1 && 1 <= short <= long <= MAX_KEY
    ensures DerivedKey(prf, password, salt, c, short) == DerivedKey(prf, password, salt, c, long)[..short]
  {
    var k, l := (short + HASH_LEN - 1) / HASH_LEN, (long + HASH_LEN - 1) / HASH_LEN;
    BlocksExtend(prf, password, salt, c, k, l);
    var all := Blocks(prf, password, salt, c, l);
    assert all[..k * HASH_LEN][..short] == all[..short] == all[..long][..short];
  }

  // ---------- the loops of the source ----------

  const WORD := 0x1_0000_0000

  /** The blocks numbered by a 32-bit counter, which wraps to 0 after 2^32 - 1. */
  function CounterBlocks(prf: Prf, password: Bytes, salt: Bytes, c: nat, l: nat): (b: Bytes)
    requires c >= 1
    ensures |b| == l * HASH_LEN
  {
    if l == 0 then [] else CounterBlocks(prf, password, salt, c, l - 1) + F(prf, password, salt, c, l % WORD)
  }

  lemma {:induction false} CounterDoesNotWrap(prf: Prf, password: Bytes, salt: Bytes, c: nat, l: nat)
    requires c >= 1 && l < WORD
    ensures CounterBlocks(prf, password, salt, c, l) == Blocks(prf, password, salt, c, l)
  {
    if l > 0 {
      CounterDoesNotWrap(prf, password, salt, c, l - 1);
      Wraps(l - 1);
    }
  }

  /** Incrementing the counter, and the numbers it does not change. */
  lemma Wraps(n: nat)
    ensures (n % WORD + 1) % WORD == (n + 1) % WORD
    ensures n + 1 < WORD ==> (n + 1) % WORD == n + 1
  {
  }

  lemma BlockCount(done: nat, length: nat)
    requires length >= 1 && length <= done * HASH_LEN && (done - 1) * HASH_LEN < length
    ensures done == (length + HASH_LEN - 1) / HASH_LEN
    ensures length <= MAX_KEY ==> done < WORD
  {
  }

  /**
   pbkdf2SHA256: the truncated blocks of a wrapping counter for every length, and hence the
   derived key of the RFC for every length the RFC allows.
   */
  method Pbkdf2Sha256(prf: Prf, password: Bytes, salt: Bytes, iterations: int, length: int) returns (key: Option<Bytes>)
    ensures key.Some? <==> iterations >= 1 && length >= 1
    ensures key.Some? ==>
      key.value == CounterBlocks(prf, password, salt, iterations, (length + HASH_LEN - 1) / HASH_LEN)[..length]
    ensures key.Some? && length <= MAX_KEY ==> key.value == DerivedKey(prf, password, salt, iterations, length)
  {
    if iterations < 1 || length < 1 { return None; }
    var result: Bytes := [];
    var block: nat := 1;
    ghost var done: nat := 0;
    while |result| < length
      invariant block == (done + 1) % WORD
      invariant result == CounterBlocks(prf, password, salt, iterations, done)
      invariant done == 0 || (done - 1) * HASH_LEN < length
      decreases length - |result|
    {
      var t := DeriveBlock(prf, password, salt, iterations, block);
      result := result + t[..];
      Wraps(done + 1);
      block := (block + 1) % WORD;
      done := done + 1;
    }
    BlockCount(done, length);
    if length <= MAX_KEY { CounterDoesNotWrap(prf, password, salt, iterations, done); }
    return Some(result[..length]);
  }

  /** One round of the outer loop: t starts as a copy of u and collects the later ones in place. */
  method DeriveBlock(prf: Prf, password: Bytes, salt: Bytes, iterations: int, block: nat) returns (t: array<bv8>)
    requires iterations >= 1 && block < WORD
    ensures fresh(t) && t[..] == F(prf, password, salt, iterations, block)
  {
    var u := prf(password, salt + Int4(block));
    t := new bv8[|u|](i requires 0 <= i < |u| => u[i]);
    assert t[..] == u;
    var i := 1;
    while i < iterations
      invariant 1 <= i <= iterations && t.Length == HASH_LEN && fresh(t)
      invariant u == U(prf, password, salt, block, i)
      invariant t[..] == F(prf, password, salt, i, block)
    {
      u := prf(password, u);
      XorInPlace(t, u);
      i := i + 1;
    }
  }

  /** The innermost loop. */
  method XorInPlace(t: array<bv8>, u: Bytes)
    requires t.Length == |u|
    modifies t
    ensures t[..] == Xor(old(t[..]), u)
  {
    var j := 0;
    while j < t.Length
      invariant 0 <= j <= t.Length
      invariant forall k :: 0 <= k < j ==> t[k] == old(t[k]) ^ u[k]
      invariant forall k :: j <= k < t.Length ==> t[k] == old(t[k])
    {
      t[j] := t[j] ^ u[j];
      j := j + 1;
    }
    assert t[..] == Xor(old(t[..]), u);
  }
}
