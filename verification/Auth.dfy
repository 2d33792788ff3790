/**
 The stored web credentials: setting, verifying and migrating passwords. Key derivation and
 base64 come from their own modules; the file is written as module AtomicWrite describes.
 */
module Auth {
  import opened Common
  import opened Pbkdf2
  import Base64

  const PASSWORD_ITERATIONS := 600000

  datatype UIAuth = UIAuth(
    secretPath: string, username: string, password: string,
    passwordSalt: string, passwordHash: string, passwordIterations: int
  )

  const ZERO := UIAuth("", "", "", "", "", 0)

  /** ui_auth.json: absent, present but not readable as JSON, or a record. */
  datatype AuthFile = Missing | Damaged | Present(auth: UIAuth)

  /** The ways writeJSON ends: its final chmod can fail after the new record is in place. */
  datatype WriteOutcome = Written | WrittenButFailed | NotWritten

  /** HMAC-SHA256 and the bytes of a Go string. */
  datatype Crypto = Crypto(prf: Prf, bytes: string -> Bytes)

  function Key(c: Crypto, salt: string, password: string): Bytes {
    DerivedKey(c.prf, c.bytes(password), c.bytes(salt), PASSWORD_ITERATIONS, HASH_LEN)
  }

  /** VerifyPassword. */
  predicate VerifyPassword(c: Crypto, a: UIAuth, password: string) {
    && a.passwordHash != "" && a.passwordSalt != "" && a.passwordIterations == PASSWORD_ITERATIONS
    && var want := Base64.Decode(a.passwordHash);
    && want.Some? && |want.value| == HASH_LEN
    && Key(c, a.passwordSalt, password) == want.value
  }

  /** The 32-byte key of RFC 8018 of the password's own bytes under the salt, after 600000 iterations, is this one. */
  ghost predicate Derives(c: Crypto, salt: string, password: string, key: Bytes) {
    DerivedKey(c.prf, c.bytes(password), c.bytes(salt), 600000, 32) == key
  }

  /** The record accepts a password exactly when it derives the same key as the given one. */
  ghost predicate VerifiesLike(c: Crypto, a: UIAuth, password: string) {
    forall q :: VerifyPassword(c, a, q) <==>
      Derives(c, a.passwordSalt, q, DerivedKey(c.prf, c.bytes(password), c.bytes(a.passwordSalt), 600000, 32))
  }

  lemma StoredKeyVerifies(c: Crypto, a: UIAuth, password: string)
    requires a.passwordSalt != "" && a.passwordIterations == PASSWORD_ITERATIONS
    requires a.passwordHash == Base64.Encode(DerivedKey(c.prf, c.bytes(password), c.bytes(a.passwordSalt), 600000, 32))
    ensures VerifiesLike(c, a, password) && a.passwordHash != ""
  {
    Base64.DecodeOfEncode(Key(c, a.passwordSalt, password));
  }

  /** Verification is of the password: the stored hash decodes to the key its bytes derive under the stored salt. */
  lemma VerifiedMeansDerived(c: Crypto, a: UIAuth, password: string)
    ensures VerifyPassword(c, a, password) <==>
      && a.passwordHash != "" && a.passwordSalt != "" && a.passwordIterations == 600000
      && Base64.Decode(a.passwordHash).Some? && |Base64.Decode(a.passwordHash).value| == 32
      && Derives(c, a.passwordSalt, password, Base64.Decode(a.passwordHash).value)
  {
  }

  // ---------- different passwords can be told apart ----------

  const ONES: Bytes := seq(HASH_LEN, _ => 255)
  const ZEROS: Bytes := seq(HASH_LEN, _ => 0)

  /** A function that answers one question specially: the first of the derivation for this password and salt. */
  function Telling(password: Bytes, salt: Bytes): Prf {
    (key, text) => if key == password && text == salt + Int4(1) then ONES else ZEROS
  }

  /** The later questions are all answered alike. */
  lemma {:induction false} TellingRounds(password: Bytes, salt: Bytes, key: Bytes, k: nat)
    requires k >= 1
    ensures U(Telling(password, salt), key, salt, 1, k) == if k == 1 && key == password then ONES else ZEROS
    decreases k
  {
    if k > 1 {
      TellingRounds(password, salt, key, k - 1);
      EndsDiffer(salt);
    }
  }

  /** No round's result is the first question again, whose last octet is 1. */
  lemma EndsDiffer(salt: Bytes)
    ensures salt + Int4(1) != ONES && salt + Int4(1) != ZEROS
  {
    var first := salt + Int4(1);
    assert first[|first| - 1] == 1;
    assert |first| == HASH_LEN ==> ONES[|first| - 1] == 255 && ZEROS[|first| - 1] == 0;
  }

  lemma {:induction false} TellingBlock(password: Bytes, salt: Bytes, key: Bytes, k: nat)
    requires k >= 1
    ensures F(Telling(password, salt), key, salt, k, 1) == if key == password then ONES else ZEROS
    decreases k
  {
    TellingRounds(password, salt, key, k);
    if k > 1 {
      TellingBlock(password, salt, key, k - 1);
      XorZeros();
    }
  }

  lemma XorZeros()
    ensures Xor(ONES, ZEROS) == ONES && Xor(ZEROS, ZEROS) == ZEROS
  {
  }

  lemma OneBlock(prf: Prf, key: Bytes, salt: Bytes, c: nat)
    requires c >= 1
    ensures DerivedKey(prf, key, salt, c, HASH_LEN) == F(prf, key, salt, c, 1)
  {
    var f := F(prf, key, salt, c, 1);
    assert Blocks(prf, key, salt, c, 0) + f == f && f[..HASH_LEN] == f;
    assert Blocks(prf, key, salt, c, 1) == Blocks(prf, key, salt, c, 0) + f;
  }

  /**
     The password matters: for two passwords of different bytes and any salt there is a function in the
     place of HMAC under which a record that verifies the first refuses the second.
   */
  lemma PasswordsAreToldApart(bytes: string -> Bytes, a: UIAuth, p: string, q: string) returns (c: Crypto, record: UIAuth)
    requires bytes(p) != bytes(q) && a.passwordSalt != ""
    ensures c.bytes == bytes && record == a.(passwordHash := record.passwordHash, passwordIterations := 600000)
    ensures VerifyPassword(c, record, p) && !VerifyPassword(c, record, q)
  {
    var salt := bytes(a.passwordSalt);
    c := Crypto(Telling(bytes(p), salt), bytes);
    TellingBlock(bytes(p), salt, bytes(p), 600000);
    TellingBlock(bytes(p), salt, bytes(q), 600000);
    OneBlock(c.prf, bytes(p), salt, 600000);
    OneBlock(c.prf, bytes(q), salt, 600000);
    Base64.DecodeOfEncode(ONES);
    record := a.(passwordHash := Base64.Encode(ONES), passwordIterations := 600000);
    assert ONES[0] != ZEROS[0];
  }

  predicate IsHex(s: string) { forall i :: 0 <= i < |s| ==> s[i] in "0123456789abcdef" }

  /** What EnsureAuthConfigured promises about the record it stores. */
  ghost predicate Migrated(c: Crypto, before: UIAuth, after: UIAuth, username: string, password: string) {
    && after.password == ""
    && (before.secretPath != "" ==> after.secretPath == before.secretPath)
    && (before.secretPath == "" ==> |after.secretPath| == 24 && IsHex(after.secretPath))
    && after.username == (if username != "" then username else before.username) != ""
    && (username != "" ==> VerifiesLike(c, after, password))
    && (username == "" && before.password != "" ==> VerifiesLike(c, after, before.password))
    && (username == "" && before.password == "" ==>
          forall q :: VerifyPassword(c, after, q) <==> VerifyPassword(c, before, q))
  }

  /** What a caller must supply, given the stored record, for credentials to be configured. */
  predicate Configurable(file: AuthFile, username: string, password: string, demo: bool) {
    && !file.Damaged?
    && (username == "" <==> password == "")
    && (username != "" ==> demo || |password| >= 16)
    && var before := if file.Present? then file.auth else ZERO;
    && (username == "" ==>
          before.username != "" && (before.password != "" || (before.passwordHash != "" && before.passwordSalt != "")))
  }

  class Store {
    var file: AuthFile
    var draws: nat
    const crypto: Crypto
    /** The k-th use of the random source, None when it fails; and what the k-th draw writes. */
    const random: nat -> bool
    const entropy: (nat, nat) -> bv8
    const writing: nat -> WriteOutcome

    constructor (file: AuthFile, crypto: Crypto, random: nat -> bool, entropy: (nat, nat) -> bv8, writing: nat -> WriteOutcome)
      ensures this.file == file && this.crypto == crypto
    {
      this.file, this.draws, this.crypto := file, 0, crypto;
      this.random, this.entropy, this.writing := random, entropy, writing;
    }

    /** Nothing in the environment fails from here on. */
    ghost predicate Healthy() {
      (forall k :: random(k)) && (forall k :: writing(k).Written?)
    }

    /** randHex: the low half of each random byte picks a digit, in place. */
    method RandHex(n: nat) returns (hex: Option<string>)
      modifies this`draws
      ensures hex.Some? ==> |hex.value| == n && IsHex(hex.value)
      ensures Healthy() ==> hex.Some?
    {
      var k := draws;
      draws := draws + 1;
      if !random(k) { return None; }
      var digits := "0123456789abcdef";
      var b := new char[n](_ => '0');
      var i := 0;
      while i < n
        invariant 0 <= i <= n
        invariant forall j :: 0 <= j < n ==> b[j] in digits
      {
        b[i] := digits[(entropy(k, i) & 0x0F) as int];
        i := i + 1;
      }
      return Some(b[..]);
    }

    /** setPassword. */
    method SetPassword(a: UIAuth, password: string) returns (r: Option<UIAuth>)
      modifies this`draws
      ensures r.Some? ==>
        && VerifiesLike(crypto, r.value, password)
        && r.value.password == "" && r.value.passwordHash != "" && |r.value.passwordSalt| == 16 && IsHex(r.value.passwordSalt)
        && r.value.username == a.username && r.value.secretPath == a.secretPath
      ensures Healthy() ==> r.Some?
    {
      var salt := RandHex(16);
      if salt.None? { return None; }
      var key := Pbkdf2Sha256(crypto.prf, crypto.bytes(password), crypto.bytes(salt.value), PASSWORD_ITERATIONS, HASH_LEN);
      var auth := a.(passwordSalt := salt.value, passwordHash := Base64.Encode(key.value),
                     passwordIterations := PASSWORD_ITERATIONS, password := "");
      StoredKeyVerifies(crypto, auth, password);
      return Some(auth);
    }

    /** SaveAuth. */
    method SaveAuth(auth: UIAuth) returns (ok: bool)
      modifies this`file, this`draws
      ensures ok ==> file == Present(auth.(password := ""))
      ensures !ok ==> file == old(file) || file == Present(auth.(password := ""))
      ensures Healthy() ==> ok
    {
      var outcome := writing(draws);
      draws := draws + 1;
      if !outcome.NotWritten? { file := Present(auth.(password := "")); }
      ok := outcome.Written?;
    }

    /**
     EnsureAuthConfigured. After success the stored record has no plaintext, keeps an earlier
     secret path, and verifies the configured password if one was given, else the legacy one if
     there was one, else exactly what it verified before. Without failures of the environment it
     succeeds exactly on the configurable inputs.
     */
    method EnsureAuthConfigured(username: string, password: string, demo: bool) returns (ok: bool)
      modifies this
      ensures var before := if old(file).Present? then old(file).auth else ZERO;
              && (ok ==> file.Present? && Migrated(crypto, before, file.auth, username, password))
              && (!ok ==> file == old(file) || (file.Present? && Migrated(crypto, before, file.auth, username, password)))
      ensures ok ==> Configurable(old(file), username, password, demo)
      ensures Healthy() && Configurable(old(file), username, password, demo) ==> ok
    {
      if file.Damaged? { return false; }
      var auth := if file.Present? then file.auth else ZERO;
      ghost var before := auth;
      if (username == "") != (password == "") { return false; }
      if username != "" {
        if |password| < 16 && !demo { return false; }
        auth := auth.(username := username);
        var hashed := SetPassword(auth, password);
        if hashed.None? { return false; }
        auth := hashed.value;
      }
      if auth.secretPath == "" {
        var secret := RandHex(24);
        if secret.None? { return false; }
        auth := auth.(secretPath := secret.value);
      }
      if auth.password != "" {
        var hashed := SetPassword(auth, auth.password);
        if hashed.None? { return false; }
        auth := hashed.value;
      }
      if auth.username == "" || auth.passwordHash == "" || auth.passwordSalt == "" { return false; }
      assert Migrated(crypto, before, auth.(password := ""), username, password);
      ok := SaveAuth(auth);
    }
  }
}
