/**
 * Password hashing and checking (internal/auth/password.go and internal/auth/pepper.go). Argon2id, HMAC-SHA256, the
 * NFKC form, rune counting and the breach list are parameters; a password is its bytes.
 */
module Password {
  import opened Basics
  import opened Base64
  import opened HashString

  datatype Crypto = Crypto(
    argon: (string, seq<Byte>, Cost, nat) -> seq<Byte>,
    hmac: (seq<Byte>, seq<Byte>) -> seq<Byte>,
    nfkc: string -> string,
    runes: string -> nat,
    breached: string -> bool)

  const MAC_LEN := 32

  /** Output lengths: argon2id yields what it is asked for, HMAC-SHA256 always 32 bytes. */
  ghost predicate Lawful(c: Crypto) {
    (forall pw, salt, cost, n :: |c.argon(pw, salt, cost, n)| == n) && (forall k, m :: |c.hmac(k, m)| == MAC_LEN)
  }

  datatype Params = Params(cost: Cost, saltLen: U32, keyLen: U32)

  const DEFAULT := Params(DEFAULT_COST, 16, DEFAULT_KEY)

  // ----- Policy -----

  datatype Weakness = TooShort | TooLong | Breached

  function IsWeak(c: Crypto, password: string): Option<Weakness> {
    var p := c.nfkc(password);
    if c.runes(p) < 15 then Some(TooShort)
    else if c.runes(p) > 128 then Some(TooLong)
    else if c.breached(p) then Some(Breached) else None
  }

  // ----- Hashing -----

  /** An empty pepper changes nothing. */
  function Pepper(c: Crypto, output: seq<Byte>, pepper: seq<Byte>): seq<Byte> {
    if pepper == [] then output else c.hmac(pepper, output)
  }

  function VerifyPeppered(c: Crypto, candidate: seq<Byte>, stored: seq<Byte>, pepper: seq<Byte>): bool {
    Pepper(c, candidate, pepper) == stored
  }

  /** `salt` is what the random source gave for the requested length. */
  function Hash(c: Crypto, password: string, p: Params, salt: seq<Byte>): Result<string, Weakness>
    requires |salt| == p.saltLen
  {
    match IsWeak(c, password)
    case Some(w) => Err(w)
    case None => Ok(Render(p.cost, salt, c.argon(c.nfkc(password), salt, p.cost, p.keyLen)))
  }

  function HashPeppered(c: Crypto, password: string, p: Params, salt: seq<Byte>, pepper: seq<Byte>): Result<string, Weakness>
    requires |salt| == p.saltLen
  {
    match IsWeak(c, password)
    case Some(w) => Err(w)
    case None => Ok(Render(p.cost, salt, Pepper(c, c.argon(c.nfkc(password), salt, p.cost, p.keyLen), pepper)))
  }

  // ----- Checking -----

  datatype VerifyError = Malformed(fault: Fault) | UnsupportedVariant | UnsupportedVersion
  datatype Check = Check(ok: bool, needsRehash: bool)

  predicate Weaker(cost: Cost, keyLen: nat) {
    cost.time < DEFAULT_COST.time || cost.memory < DEFAULT_COST.memory || cost.threads < DEFAULT_COST.threads ||
    keyLen < DEFAULT_KEY
  }

  function Verify(c: Crypto, password: string, encoded: string): Result<Check, VerifyError> {
    match Parsed(encoded)
    case Err(f) => Err(Malformed(f))
    case Ok(d) =>
      if d.variant != VARIANT then Err(UnsupportedVariant)
      else if d.version != VERSION then Err(UnsupportedVersion)
      else
        var normalized := c.nfkc(password);
        var matched := c.argon(normalized, d.salt, d.cost, |d.key|) == d.key;
        var legacy := !matched && normalized != password && c.argon(password, d.salt, d.cost, |d.key|) == d.key;
        Ok(Check(matched || legacy, (matched || legacy) && (Weaker(d.cost, |d.key|) || legacy)))
  }

  function VerifyPasswordPeppered(c: Crypto, password: string, encoded: string, pepper: seq<Byte>): Result<Check, VerifyError> {
    match Parsed(encoded)
    case Err(f) => Err(Malformed(f))
    case Ok(d) =>
      if d.variant != VARIANT then Err(UnsupportedVariant)
      else if d.version != VERSION then Err(UnsupportedVersion)
      else
        var normalized := c.nfkc(password);
        var matched := VerifyPeppered(c, c.argon(normalized, d.salt, d.cost, |d.key|), d.key, pepper);
        var legacy := !matched && normalized != password
                      && VerifyPeppered(c, c.argon(password, d.salt, d.cost, |d.key|), d.key, pepper);
        Ok(Check(matched || legacy, (matched || legacy) && (Weaker(d.cost, |d.key|) || legacy)))
  }

  /** What falls short of the default: three passes, 64 MiB, one lane, a key of 32 bytes. */
  ghost predicate Short(cost: Cost, keyLen: nat) {
    cost.time < 3 || cost.memory < 65536 || cost.threads < 1 || keyLen < 32
  }

  /**
   * What checking means, for any stored string: it is answered exactly when the string parses as argon2id version 19;
   * the password matches exactly when its NFKC form or, failing that, its raw form derives the stored key; and a
   * rehash is asked for exactly when a match falls short of the default or was found only in the raw form.
   */
  lemma VerifyMeans(c: Crypto, password: string, encoded: string, pepper: seq<Byte>)
    ensures
      var r, d := VerifyPasswordPeppered(c, password, encoded, pepper), Parsed(encoded);
      && (r.Ok? <==> d.Ok? && d.value.variant == "argon2id" && d.value.version == 19)
      && (d.Err? ==> r == Err(Malformed(d.error)))
      && (d.Ok? && d.value.variant != "argon2id" ==> r == Err(UnsupportedVariant))
      && (d.Ok? && d.value.variant == "argon2id" && d.value.version != 19 ==> r == Err(UnsupportedVersion))
      && (r.Ok? ==>
            var normal := Pepper(c, c.argon(c.nfkc(password), d.value.salt, d.value.cost, |d.value.key|), pepper);
            var raw := Pepper(c, c.argon(password, d.value.salt, d.value.cost, |d.value.key|), pepper);
            && (r.value.ok <==> normal == d.value.key || raw == d.value.key)
            && (r.value.needsRehash <==> r.value.ok && (Short(d.value.cost, |d.value.key|) || normal != d.value.key)))
  {
    hide Parsed, Pepper;
  }

  /** A password may be hashed exactly when its NFKC form has 15 to 128 characters and is not on the breach list. */
  lemma PolicyExact(c: Crypto, password: string, p: Params, salt: seq<Byte>, pepper: seq<Byte>)
    requires |salt| == p.saltLen
    ensures
      var n := c.runes(c.nfkc(password));
      && (HashPeppered(c, password, p, salt, pepper).Ok? <==> 15 <= n <= 128 && !c.breached(c.nfkc(password)))
      && (Hash(c, password, p, salt).Ok? <==> 15 <= n <= 128 && !c.breached(c.nfkc(password)))
      && (n < 15 ==> Hash(c, password, p, salt) == HashPeppered(c, password, p, salt, pepper) == Err(TooShort))
      && (n > 128 ==> Hash(c, password, p, salt) == HashPeppered(c, password, p, salt, pepper) == Err(TooLong))
      && (15 <= n <= 128 && c.breached(c.nfkc(password)) ==>
            Hash(c, password, p, salt) == HashPeppered(c, password, p, salt, pepper) == Err(Breached))
  {
    hide Render, Pepper;
  }

  // ----- The round trip -----

  /** The costs that the parser will take back. */
  predicate Affordable(cost: Cost) {
    1 <= cost.time <= 12 && 1 <= cost.memory <= 256 * 1024 && 1 <= cost.threads <= 4
  }

  lemma StoredComesBack(cost: Cost, salt: seq<Byte>, key: seq<Byte>)
    ensures Parsed(Render(cost, salt, key)).Ok? <==> Affordable(cost) && salt != [] && key != []
    ensures Parsed(Render(cost, salt, key)).Ok? ==> Parsed(Render(cost, salt, key)) == Ok(Decoded(VARIANT, VERSION, cost, salt, key))
  {
    hide Parsed, Render;
    ParsedRender(cost, salt, key);
  }

  /**
   * A hash is readable exactly when its costs are under the ceiling and neither salt nor key is empty; it then
   * accepts every password with the same NFKC form, and asks for a rehash exactly when it is weaker than the default.
   */
  lemma HashVerifies(c: Crypto, password: string, typed: string, p: Params, salt: seq<Byte>)
    requires Lawful(c) && |salt| == p.saltLen && IsWeak(c, password).None? && c.nfkc(typed) == c.nfkc(password)
    ensures
      var r := Verify(c, typed, Hash(c, password, p, salt).value);
      (r.Ok? <==> Affordable(p.cost) && p.saltLen > 0 && p.keyLen > 0) &&
      (r.Ok? ==> r.value == Check(true, Short(p.cost, p.keyLen)))
  {
    hide Parsed, Render, Affordable;
    StoredComesBack(p.cost, salt, c.argon(c.nfkc(password), salt, p.cost, p.keyLen));
  }

  /** No two of these passwords share a key. */
  ghost predicate KeysDiffer(c: Crypto, passwords: set<string>, salt: seq<Byte>, p: Params) {
    forall a, b | a in passwords && b in passwords &&
      c.argon(a, salt, p.cost, p.keyLen) == c.argon(b, salt, p.cost, p.keyLen) :: a == b
  }

  /** Unless keys collide, a hash accepts the passwords of one NFKC form and no others. */
  lemma AcceptsExactly(c: Crypto, password: string, typed: string, p: Params, salt: seq<Byte>)
    requires Lawful(c) && |salt| == p.saltLen && IsWeak(c, password).None?
    requires KeysDiffer(c, {c.nfkc(password), c.nfkc(typed), typed}, salt, p)
    requires c.nfkc(c.nfkc(password)) == c.nfkc(password)
    requires Affordable(p.cost) && p.saltLen > 0 && p.keyLen > 0
    ensures Verify(c, typed, Hash(c, password, p, salt).value).Ok?
    ensures Verify(c, typed, Hash(c, password, p, salt).value).value.ok <==> c.nfkc(typed) == c.nfkc(password)
  {
    hide Parsed, Render, Affordable, Weaker;
    StoredComesBack(p.cost, salt, c.argon(c.nfkc(password), salt, p.cost, p.keyLen));
  }

  // ----- The pepper -----

  /** Without a pepper the peppered pair is the plain pair. */
  lemma NoPepperNoChange(c: Crypto, password: string, p: Params, salt: seq<Byte>, encoded: string)
    requires |salt| == p.saltLen
    ensures HashPeppered(c, password, p, salt, []) == Hash(c, password, p, salt)
    ensures VerifyPasswordPeppered(c, password, encoded, []) == Verify(c, password, encoded)
  {
    hide Parsed, Render;
  }

  /** No two of these outputs share a MAC. */
  ghost predicate MacsDiffer(c: Crypto, outputs: set<seq<Byte>>, pepper: seq<Byte>) {
    forall a, b | a in outputs && b in outputs && c.hmac(pepper, a) == c.hmac(pepper, b) :: a == b
  }

  /** Every output that hashing `password` and checking `typed` can meet. */
  function Outputs(c: Crypto, password: string, typed: string, p: Params, salt: seq<Byte>): set<seq<Byte>> {
    {c.argon(c.nfkc(password), salt, p.cost, p.keyLen),
     c.argon(c.nfkc(typed), salt, p.cost, MAC_LEN), c.argon(typed, salt, p.cost, MAC_LEN)}
  }

  /**
   * A peppered hash is stored with the MAC's 32 bytes, and checking derives as many as are stored: so a readable
   * hash accepts its own password exactly when no pepper is configured or the key length is 32.
   */
  lemma PepperedVerifies(c: Crypto, password: string, typed: string, p: Params, salt: seq<Byte>, pepper: seq<Byte>)
    requires Lawful(c) && |salt| == p.saltLen
    requires pepper != [] && p.keyLen != MAC_LEN ==> MacsDiffer(c, Outputs(c, password, typed, p, salt), pepper)
    requires IsWeak(c, password).None? && c.nfkc(typed) == c.nfkc(password)
    ensures
      var r := VerifyPasswordPeppered(c, typed, HashPeppered(c, password, p, salt, pepper).value, pepper);
      var fits := pepper == [] || p.keyLen == 32;
      (r.Ok? <==> Affordable(p.cost) && p.saltLen > 0 && (p.keyLen > 0 || pepper != [])) &&
      (r.Ok? ==> r.value == Check(fits, fits && Short(p.cost, p.keyLen)))
  {
    hide Parsed, Render, Affordable;
    var output := c.argon(c.nfkc(password), salt, p.cost, p.keyLen);
    StoredComesBack(p.cost, salt, Pepper(c, output, pepper));
    if pepper != [] && p.keyLen != MAC_LEN {
      assert c.argon(c.nfkc(typed), salt, p.cost, MAC_LEN) != output;
      assert c.argon(typed, salt, p.cost, MAC_LEN) != output;
    }
  }

  // ----- Old hashes -----

  /**
   * A hash derived from the raw password still verifies; it asks for a rehash if it is weak or if the NFKC form
   * derives another key. One rehash under the default parameters settles it, peppered or not.
   */
  lemma LegacyMigrates(c: Crypto, password: string, cost: Cost, salt: seq<Byte>, keyLen: nat, pepper: seq<Byte>, newSalt: seq<Byte>)
    requires Lawful(c) && Affordable(cost) && salt != [] && keyLen > 0 && |newSalt| == DEFAULT.saltLen
    requires pepper == [] || keyLen == MAC_LEN
    ensures
      var raw := Pepper(c, c.argon(password, salt, cost, keyLen), pepper);
      var normal := Pepper(c, c.argon(c.nfkc(password), salt, cost, keyLen), pepper);
      VerifyPasswordPeppered(c, password, Render(cost, salt, raw), pepper)
        == Ok(Check(true, Short(cost, keyLen) || normal != raw))
    ensures IsWeak(c, password).None? ==>
              VerifyPasswordPeppered(c, password, HashPeppered(c, password, DEFAULT, newSalt, pepper).value, pepper)
                == Ok(Check(true, false))
  {
    hide Parsed, Render;
    StoredComesBack(cost, salt, Pepper(c, c.argon(password, salt, cost, keyLen), pepper));
    StoredComesBack(DEFAULT_COST, newSalt, Pepper(c, c.argon(c.nfkc(password), newSalt, DEFAULT_COST, DEFAULT_KEY), pepper));
  }
}
