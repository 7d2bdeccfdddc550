/** The stored form of a password hash (Hash and decode in internal/auth/password.go): printer and parser. */
module HashString {
  import opened Basics
  import opened Base64
  import Decimal

  type U32 = n: int | 0 <= n < 0x1_0000_0000
  type U8 = n: int | 0 <= n < 0x100

  datatype Cost = Cost(time: U32, memory: U32, threads: U8)

  const DEFAULT_COST := Cost(3, 64 * 1024, 1)
  const DEFAULT_KEY := 32
  const CEILING_MULTIPLE := 4
  const VARIANT := "argon2id"
  const VERSION := 19

  datatype Decoded = Decoded(variant: string, version: int, cost: Cost, salt: seq<Byte>, key: seq<Byte>)
  datatype Fault =
    | MalformedEncoding | MalformedVersionField | MalformedVersion | MalformedParams | OutOfRange | AboveCeiling
    | MalformedSalt | MalformedKey | EmptySaltOrKey

  // ----- Splitting -----

  /** `strings.Split` on one character. */
  function Split(s: string, sep: char): (parts: seq<string>)
    ensures parts != []
  {
    if s == "" then [""]
    else
      var rest := Split(s[1..], sep);
      if s[0] == sep then [""] + rest else [[s[0]] + rest[0]] + rest[1..]
  }

  /** `strings.SplitN` with a limit of two: None when the separator is missing. */
  function Cut(s: string, sep: char): Option<(string, string)> {
    if s == "" then None
    else if s[0] == sep then Some(("", s[1..]))
    else
      match Cut(s[1..], sep)
      case None => None
      case Some((a, b)) => Some(([s[0]] + a, b))
  }

  function Join(parts: seq<string>, sep: char): string
    requires parts != []
  {
    if |parts| == 1 then parts[0] else parts[0] + ([sep] + Join(parts[1..], sep))
  }

  lemma {:induction false} SplitPlain(a: string, sep: char)
    requires sep !in a
    ensures Split(a, sep) == [a]
  {
    if a != "" {
      SplitPlain(a[1..], sep);
      assert a == [a[0]] + a[1..];
    }
  }

  lemma {:induction false} SplitStep(a: string, rest: string, sep: char)
    requires sep !in a
    ensures Split(a + ([sep] + rest), sep) == [a] + Split(rest, sep)
  {
    var s := a + ([sep] + rest);
    if a == "" {
      assert s[0] == sep && s[1..] == rest;
    } else {
      SplitStep(a[1..], rest, sep);
      assert s[0] == a[0] && s[1..] == a[1..] + ([sep] + rest);
      assert a == [a[0]] + a[1..];
    }
  }

  lemma {:induction false} SplitOfJoin(parts: seq<string>, sep: char)
    requires parts != [] && forall a | a in parts :: sep !in a
    ensures Split(Join(parts, sep), sep) == parts
  {
    assert parts[0] in parts;
    if |parts| == 1 {
      SplitPlain(parts[0], sep);
    } else {
      SplitStep(parts[0], Join(parts[1..], sep), sep);
      SplitOfJoin(parts[1..], sep);
    }
  }

  lemma {:induction false} CutStep(a: string, rest: string, sep: char)
    requires sep !in a
    ensures Cut(a + ([sep] + rest), sep) == Some((a, rest))
  {
    var s := a + ([sep] + rest);
    if a == "" {
      assert s[0] == sep && s[1..] == rest;
    } else {
      CutStep(a[1..], rest, sep);
      assert s[0] == a[0] && s[1..] == a[1..] + ([sep] + rest);
      assert a == [a[0]] + a[1..];
    }
  }

  // ----- The printer -----

  function Field(name: string, n: nat): string { name + (['='] + Decimal.Print(n)) }

  function Fields(c: Cost): (fs: seq<string>)
    ensures |fs| == 3
  {
    [Field("m", c.memory), Field("t", c.time), Field("p", c.threads)]
  }

  function Parts(c: Cost, salt: seq<Byte>, key: seq<Byte>): seq<string> {
    ["", VARIANT, "v=" + Decimal.Print(VERSION), Join(Fields(c), ','), Encode(salt), Encode(key)]
  }

  /** `$argon2id$v=19$m=..,t=..,p=..$salt$key`. */
  function Render(c: Cost, salt: seq<Byte>, key: seq<Byte>): string { Join(Parts(c, salt, key), '$') }

  // ----- The parser -----

  /** The three numbers read so far; none has been checked yet. */
  datatype Numbers = Numbers(m: int, t: int, p: int)

  /** One `name=value` field; a later field of the same name wins. */
  function Take(acc: Numbers, field: string): Option<Numbers> {
    match Cut(field, '=')
    case None => None
    case Some((name, value)) =>
      match Decimal.Parse(value)
      case None => None
      case Some(n) =>
        if name == "m" then Some(acc.(m := n))
        else if name == "t" then Some(acc.(t := n))
        else if name == "p" then Some(acc.(p := n)) else None
  }

  function TakeAll(fields: seq<string>): Option<Numbers> {
    if fields == [] then Some(Numbers(0, 0, 0))
    else
      match TakeAll(fields[..|fields| - 1])
      case None => None
      case Some(acc) => Take(acc, fields[|fields| - 1])
  }

  predicate InRange(n: Numbers) {
    0 < n.m < 0x1_0000_0000 && 0 < n.t < 0x1_0000_0000 && 0 < n.p < 0x100
  }

  predicate UnderCeiling(n: Numbers) {
    n.m <= DEFAULT_COST.memory as int * CEILING_MULTIPLE && n.t <= DEFAULT_COST.time as int * CEILING_MULTIPLE &&
    n.p <= DEFAULT_COST.threads as int * CEILING_MULTIPLE
  }

  function ToCost(n: Numbers): Cost
    requires InRange(n)
  {
    Cost(n.t, n.m, n.p)
  }

  /** Nothing in it asks a derivation for more than the ceiling, or for an empty salt or key. */
  predicate Modest(d: Decoded) {
    1 <= d.cost.memory <= 256 * 1024 && 1 <= d.cost.time <= 12 && 1 <= d.cost.threads <= 4 && d.salt != [] && d.key != []
  }

  function DecodeTail(variant: string, version: int, n: Numbers, salt: string, key: string): Result<Decoded, Fault> {
    if !InRange(n) then Err(OutOfRange)
    else if !UnderCeiling(n) then Err(AboveCeiling)
    else
      match Base64.Decode(salt)
      case None => Err(MalformedSalt)
      case Some(s) =>
        match Base64.Decode(key)
        case None => Err(MalformedKey)
        case Some(k) => if s == [] || k == [] then Err(EmptySaltOrKey) else Ok(Decoded(variant, version, ToCost(n), s, k))
  }

  function Parsed(encoded: string): Result<Decoded, Fault> {
    var parts := Split(encoded, '$');
    if |parts| != 6 || parts[0] != "" then Err(MalformedEncoding)
    else if !("v=" <= parts[2]) then Err(MalformedVersionField)
    else
      match Decimal.Parse(parts[2][2..])
      case None => Err(MalformedVersion)
      case Some(version) =>
        var fields := Split(parts[3], ',');
        if |fields| != 3 then Err(MalformedParams)
        else
          match TakeAll(fields)
          case None => Err(MalformedParams)
          case Some(n) => DecodeTail(parts[1], version, n, parts[4], parts[5])
  }

  lemma {:induction false} TakeStops(fields: seq<string>, i: nat)
    requires i <= |fields| && TakeAll(fields[..i]) == None
    ensures TakeAll(fields) == None
    decreases |fields| - i
  {
    if i < |fields| {
      assert fields[..i + 1][..i] == fields[..i];
      TakeStops(fields, i + 1);
    } else {
      assert fields[..i] == fields;
    }
  }

  /** The field loop of the parser. */
  method ReadFields(fields: seq<string>) returns (r: Option<Numbers>)
    ensures r == TakeAll(fields)
  {
    var acc := Numbers(0, 0, 0);
    var i := 0;
    while i < |fields|
      invariant 0 <= i <= |fields| && TakeAll(fields[..i]) == Some(acc)
    {
      assert fields[..i + 1][..i] == fields[..i];
      var next := Take(acc, fields[i]);
      if next.None? {
        TakeStops(fields, i + 1);
        return None;
      }
      acc := next.value;
      i := i + 1;
    }
    assert fields[..i] == fields;
    return Some(acc);
  }

  /** The parser; what it accepts is under the ceiling, with a salt and a key. */
  method Decode(encoded: string) returns (r: Result<Decoded, Fault>)
    ensures r == Parsed(encoded)
    ensures r.Ok? ==> Modest(r.value)
  {
    if Parsed(encoded).Ok? { ParsedWithinCeiling(encoded); }
    var parts := Split(encoded, '$');
    if |parts| != 6 || parts[0] != "" {
      return Err(MalformedEncoding);
    }
    if !("v=" <= parts[2]) {
      return Err(MalformedVersionField);
    }
    var version := Decimal.Parse(parts[2][2..]);
    if version.None? {
      return Err(MalformedVersion);
    }
    var fields := Split(parts[3], ',');
    if |fields| != 3 {
      return Err(MalformedParams);
    }
    var n := ReadFields(fields);
    if n.None? {
      return Err(MalformedParams);
    }
    return DecodeTail(parts[1], version.value, n.value, parts[4], parts[5]);
  }

  // ----- The round trip -----

  lemma DigitsOnly(n: nat, c: char)
    requires !Decimal.IsDigit(c)
    ensures c !in Decimal.Print(n)
  {
  }

  lemma TakeField(name: string, n: nat)
    requires '=' !in name && n <= Decimal.INT64_MAX
    ensures Cut(Field(name, n), '=') == Some((name, Decimal.Print(n))) && Decimal.Parse(Decimal.Print(n)) == Some(n)
  {
    CutStep(name, Decimal.Print(n), '=');
    Decimal.ParseOfPrint(n);
  }

  lemma TakeFields(c: Cost)
    ensures TakeAll(Fields(c)) == Some(Numbers(c.memory, c.time, c.threads))
  {
    hide Cut, Field, Decimal.Parse, Decimal.Print;
    var f, zero := Fields(c), Numbers(0, 0, 0);
    TakeField("m", c.memory);
    TakeField("t", c.time);
    TakeField("p", c.threads);
    assert f[..2][..1] == f[..1] && f[..1][..0] == [];
    assert TakeAll(f[..1]) == Some(zero.(m := c.memory));
    assert TakeAll(f[..2]) == Some(zero.(m := c.memory, t := c.time));
  }

  lemma FieldsPlain(c: Cost)
    ensures forall f | f in Fields(c) :: ',' !in f && '$' !in f
  {
    DigitsOnly(c.memory, ','); DigitsOnly(c.time, ','); DigitsOnly(c.threads, ',');
    DigitsOnly(c.memory, '$'); DigitsOnly(c.time, '$'); DigitsOnly(c.threads, '$');
  }

  lemma {:induction false} JoinPlain(parts: seq<string>, sep: char, c: char)
    requires parts != [] && c != sep && forall a | a in parts :: c !in a
    ensures c !in Join(parts, sep)
  {
    assert parts[0] in parts;
    if |parts| > 1 { JoinPlain(parts[1..], sep, c); }
  }

  lemma PartsPlain(c: Cost, salt: seq<Byte>, key: seq<Byte>)
    ensures forall a | a in Parts(c, salt, key) :: '$' !in a
  {
    hide Fields, Encode, Join;
    FieldsPlain(c);
    JoinPlain(Fields(c), ',', '$');
    DigitsOnly(VERSION, '$');
    EncodeLetters(salt);
    EncodeLetters(key);
  }

  /** What the parser says of every string the printer makes. */
  lemma ParsedRender(c: Cost, salt: seq<Byte>, key: seq<Byte>)
    ensures
      var n := Numbers(c.memory, c.time, c.threads);
      Parsed(Render(c, salt, key)) ==
        if !InRange(n) then Err(OutOfRange)
        else if !UnderCeiling(n) then Err(AboveCeiling)
        else if salt == [] || key == [] then Err(EmptySaltOrKey)
        else Ok(Decoded(VARIANT, VERSION, c, salt, key))
  {
    hide Split, Join, Fields, Base64.Encode, Base64.Decode, TakeAll, Decimal.Parse, Decimal.Print, InRange, UnderCeiling, DecodeTail;
    var parts := Parts(c, salt, key);
    PartsPlain(c, salt, key);
    SplitOfJoin(parts, '$');
    FieldsPlain(c);
    SplitOfJoin(Fields(c), ',');
    TakeFields(c);
    Decimal.ParseOfPrint(VERSION);
    assert parts[2][2..] == Decimal.Print(VERSION);
    TailOfEncode(c, salt, key);
  }

  lemma TailOfEncode(c: Cost, salt: seq<Byte>, key: seq<Byte>)
    ensures
      var n := Numbers(c.memory, c.time, c.threads);
      DecodeTail(VARIANT, VERSION, n, Encode(salt), Encode(key)) ==
        if !InRange(n) then Err(OutOfRange)
        else if !UnderCeiling(n) then Err(AboveCeiling)
        else if salt == [] || key == [] then Err(EmptySaltOrKey)
        else Ok(Decoded(VARIANT, VERSION, c, salt, key))
  {
    hide Base64.Encode, Base64.Decode;
    DecodeOfEncode(salt);
    DecodeOfEncode(key);
  }

  /** Whatever string is stored, derivation is never asked for more than the ceiling, or for an empty salt or key. */
  lemma ParsedWithinCeiling(encoded: string)
    requires Parsed(encoded).Ok?
    ensures Modest(Parsed(encoded).value)
  {
    hide Split, TakeAll, Base64.Decode, Decimal.Parse;
  }

  // ----- What the strings look like -----

  lemma JoinTwo(a: string, rest: seq<string>, sep: char)
    requires rest != []
    ensures Join([a] + rest, sep) == a + [sep] + Join(rest, sep)
  {
    assert ([a] + rest)[1..] == rest;
  }

  lemma Nineteen()
    ensures Decimal.Print(VERSION) == "19"
  {
    assert Decimal.Print(1) == "1";
  }

  /** The stored form, spelled out. */
  lemma RenderReads(c: Cost, salt: seq<Byte>, key: seq<Byte>)
    ensures Render(c, salt, key) ==
            "$argon2id$v=19$" + "m=" + Decimal.Print(c.memory) + ",t=" + Decimal.Print(c.time) + ",p=" + Decimal.Print(c.threads)
            + "$" + Encode(salt) + "$" + Encode(key)
  {
    hide Join, Encode, Decimal.Print, Field;
    Nineteen();
    CostsRead(c);
    JoinSix("", VARIANT, "v=19", Join(Fields(c), ','), Encode(salt), Encode(key), '$');
    assert "v=" + "19" == "v=19";
    assert Parts(c, salt, key) == ["", VARIANT, "v=19", Join(Fields(c), ','), Encode(salt), Encode(key)];
    Spelled(Join(Fields(c), ','), Encode(salt), Encode(key));
    Prefixed("$argon2id$v=19$", Decimal.Print(c.memory), Decimal.Print(c.time), Decimal.Print(c.threads));
  }

  lemma Spelled(costs: string, salt: string, key: string)
    ensures "" + "$" + (VARIANT + "$" + ("v=19" + "$" + (costs + "$" + (salt + "$" + key))))
            == "$argon2id$v=19$" + costs + "$" + salt + "$" + key
  {
    assert "" + "$" + (VARIANT + "$" + ("v=19" + "$")) == "$argon2id$v=19$";
  }

  lemma Prefixed(head: string, m: string, t: string, p: string)
    ensures head + ("m=" + m + ",t=" + t + ",p=" + p) == head + "m=" + m + ",t=" + t + ",p=" + p
  {
  }

  lemma CostsRead(c: Cost)
    ensures Join(Fields(c), ',')
            == "m=" + Decimal.Print(c.memory) + ",t=" + Decimal.Print(c.time) + ",p=" + Decimal.Print(c.threads)
  {
    hide Join, Decimal.Print;
    JoinThree(Field("m", c.memory), Field("t", c.time), Field("p", c.threads), ',');
  }

  lemma JoinSix(a: string, b: string, c: string, d: string, e: string, f: string, sep: char)
    ensures Join([a, b, c, d, e, f], sep)
            == a + [sep] + (b + [sep] + (c + [sep] + (d + [sep] + (e + [sep] + f))))
  {
    hide Join;
    JoinThree(d, e, f, sep);
    JoinTwo(c, [d, e, f], sep);
    JoinTwo(b, [c, d, e, f], sep);
    JoinTwo(a, [b, c, d, e, f], sep);
    assert [c] + [d, e, f] == [c, d, e, f] && [b] + [c, d, e, f] == [b, c, d, e, f];
    assert [a] + [b, c, d, e, f] == [a, b, c, d, e, f];
  }

  lemma JoinThree(a: string, b: string, c: string, sep: char)
    ensures Join([a, b, c], sep) == a + [sep] + (b + [sep] + c)
  {
    JoinTwo(b, [c], sep);
    JoinTwo(a, [b, c], sep);
    assert [b] + [c] == [b, c] && [a] + [b, c] == [a, b, c];
  }

  lemma {:induction false} JoinOfSplit(s: string, sep: char)
    ensures Join(Split(s, sep), sep) == s
  {
    if s != "" {
      JoinOfSplit(s[1..], sep);
      var rest, parts := Split(s[1..], sep), Split(s, sep);
      assert s == [s[0]] + s[1..];
      if s[0] == sep {
        JoinTwo("", rest, sep);
      } else {
        JoinCons(s[0], rest, sep);
      }
    }
  }

  lemma JoinCons(c: char, parts: seq<string>, sep: char)
    requires parts != []
    ensures Join([[c] + parts[0]] + parts[1..], sep) == [c] + Join(parts, sep)
  {
    var q := [[c] + parts[0]] + parts[1..];
    assert q[1..] == parts[1..];
    if |parts| > 1 {
      assert ([c] + parts[0]) + ([sep] + Join(parts[1..], sep)) == [c] + (parts[0] + ([sep] + Join(parts[1..], sep)));
    }
  }

  /** Some field names this number by this name. */
  ghost predicate Stated(fields: seq<string>, name: string, n: int) {
    exists f | f in fields :: States(f, name, n)
  }

  ghost predicate States(field: string, name: string, n: int) {
    Cut(field, '=').Some? && Cut(field, '=').value.0 == name && Decimal.Parse(Cut(field, '=').value.1) == Some(n)
  }

  lemma {:induction false} TakenAreStated(fields: seq<string>)
    requires TakeAll(fields).Some?
    ensures var n := TakeAll(fields).value;
            && (n.m != 0 ==> Stated(fields, "m", n.m)) && (n.t != 0 ==> Stated(fields, "t", n.t))
            && (n.p != 0 ==> Stated(fields, "p", n.p))
  {
    hide Cut, Decimal.Parse;
    if fields != [] {
      var init, f := fields[..|fields| - 1], fields[|fields| - 1];
      TakenAreStated(init);
      assert f in fields && forall x | x in init :: x in fields;
      var acc, n := TakeAll(init).value, TakeAll(fields).value;
      StatedGrows(init, fields, "m", acc.m);
      StatedGrows(init, fields, "t", acc.t);
      StatedGrows(init, fields, "p", acc.p);
      assert n.m != acc.m ==> States(f, "m", n.m);
      assert n.t != acc.t ==> States(f, "t", n.t);
      assert n.p != acc.p ==> States(f, "p", n.p);
    }
  }

  lemma StatedGrows(a: seq<string>, b: seq<string>, name: string, n: int)
    requires forall x | x in a :: x in b
    ensures Stated(a, name, n) ==> Stated(b, name, n)
  {
    hide States;
  }

  /**
   * What is accepted is six parts between dollar signs, the first empty: the variant, `v=` and the version, three
   * comma-separated fields that name the three costs, and the base64 of the salt and the key.
   */
  lemma ParsedMeans(encoded: string) returns (version: string, fields: seq<string>, salt: string, key: string)
    requires Parsed(encoded).Ok?
    ensures |fields| == 3
    ensures var d := Parsed(encoded).value;
            && encoded == Join(["", d.variant, "v=" + version, Join(fields, ','), salt, key], '$')
            && Decimal.Parse(version) == Some(d.version)
            && Stated(fields, "m", d.cost.memory) && Stated(fields, "t", d.cost.time) && Stated(fields, "p", d.cost.threads)
            && Base64.Decode(salt) == Some(d.salt) && Base64.Decode(key) == Some(d.key)
  {
    hide Split, Join, TakeAll, Base64.Decode, Decimal.Parse, Stated;
    var parts := Split(encoded, '$');
    JoinOfSplit(encoded, '$');
    version, fields, salt, key := parts[2][2..], Split(parts[3], ','), parts[4], parts[5];
    JoinOfSplit(parts[3], ',');
    TakenAreStated(fields);
    assert parts[2] == "v=" + version;
    assert parts == ["", parts[1], "v=" + version, parts[3], salt, key];
  }
}
