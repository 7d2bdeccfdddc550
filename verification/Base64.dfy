/**
 * Unpadded standard base64 (sections 3.2 and 4 of RFC 4648) as Go's RawStdEncoding reads and writes it: the decoder
 * skips line breaks and ignores left-over bits.
 */
module Base64 {
  import opened Basics

  type Byte = b: int | 0 <= b < 256
  type Sextet = v: int | 0 <= v < 64

  // ----- Bytes and sextets -----

  // The four sextets of three bytes, and the three bytes of four sextets.
  function S0(x: Byte): Sextet { x / 4 }
  function S1(x: Byte, y: Byte): Sextet { x % 4 * 16 + y / 16 }
  function S2(y: Byte, z: Byte): Sextet { y % 16 * 4 + z / 64 }
  function S3(z: Byte): Sextet { z % 64 }
  function B0(s: Sextet, t: Sextet): Byte { (s as int) * 4 + t / 16 }
  function B1(t: Sextet, u: Sextet): Byte { (t as int) % 16 * 16 + u / 4 }
  function B2(u: Sextet, v: Sextet): Byte { (u as int) % 4 * 64 + v }

  lemma Quantum(x: Byte, y: Byte, z: Byte)
    ensures B0(S0(x), S1(x, y)) == x && B1(S1(x, y), S2(y, z)) == y && B2(S2(y, z), S3(z)) == z
  {
  }

  /** A last group of one or two bytes is filled up with zero bits. */
  function Pack(b: seq<Byte>): seq<Sextet> {
    if |b| == 0 then []
    else if |b| == 1 then [S0(b[0]), S1(b[0], 0)]
    else if |b| == 2 then [S0(b[0]), S1(b[0], b[1]), S2(b[1], 0)]
    else [S0(b[0]), S1(b[0], b[1]), S2(b[1], b[2]), S3(b[2])] + Pack(b[3..])
  }

  /** None when one sextet is left over. */
  function Unpack(v: seq<Sextet>): Option<seq<Byte>> {
    if |v| == 0 then Some([])
    else if |v| == 1 then None
    else if |v| == 2 then Some([B0(v[0], v[1])])
    else if |v| == 3 then Some([B0(v[0], v[1]), B1(v[1], v[2])])
    else
      match Unpack(v[4..])
      case None => None
      case Some(rest) => Some([B0(v[0], v[1]), B1(v[1], v[2]), B2(v[2], v[3])] + rest)
  }

  lemma {:induction false} UnpackOfPack(b: seq<Byte>)
    ensures Unpack(Pack(b)) == Some(b)
  {
    hide S0, S1, S2, S3, B0, B1, B2;
    if |b| > 2 {
      Quantum(b[0], b[1], b[2]);
      UnpackOfPack(b[3..]);
      assert Pack(b)[4..] == Pack(b[3..]);
      assert b == [b[0], b[1], b[2]] + b[3..];
    } else if |b| == 2 {
      Quantum(b[0], b[1], 0);
      assert b == [b[0], b[1]];
    } else if |b| == 1 {
      Quantum(b[0], 0, 0);
      assert b == [b[0]];
    }
  }

  // ----- Sextets and letters -----

  function Letter(v: Sextet): char {
    if v < 26 then 'A' + v as char
    else if v < 52 then 'a' + (v - 26) as char
    else if v < 62 then '0' + (v - 52) as char
    else if v == 62 then '+' else '/'
  }

  predicate IsLetter(c: char) { 'A' <= c <= 'Z' || 'a' <= c <= 'z' || '0' <= c <= '9' || c == '+' || c == '/' }

  function Rank(c: char): Sextet
    requires IsLetter(c)
  {
    if 'A' <= c <= 'Z' then c as int - 'A' as int
    else if 'a' <= c <= 'z' then c as int - 'a' as int + 26
    else if '0' <= c <= '9' then c as int - '0' as int + 52
    else if c == '+' then 62 else 63
  }

  lemma RankOfLetter(v: Sextet)
    ensures IsLetter(Letter(v)) && Rank(Letter(v)) == v
  {
  }

  function Spell(v: seq<Sextet>): (s: string)
    ensures |s| == |v| && forall i | 0 <= i < |v| :: s[i] == Letter(v[i])
  {
    if v == [] then "" else [Letter(v[0])] + Spell(v[1..])
  }

  /** Reads letters, skipping line breaks; None on any other character. */
  function Read(s: string): Option<seq<Sextet>> {
    if s == "" then Some([])
    else if s[0] == '\r' || s[0] == '\n' then Read(s[1..])
    else if !IsLetter(s[0]) then None
    else
      match Read(s[1..])
      case None => None
      case Some(rest) => Some([Rank(s[0])] + rest)
  }

  lemma {:induction false} ReadOfSpell(v: seq<Sextet>)
    ensures Read(Spell(v)) == Some(v)
  {
    if v != [] {
      RankOfLetter(v[0]);
      ReadOfSpell(v[1..]);
      assert Spell(v)[1..] == Spell(v[1..]);
      assert Spell(v)[0] == Letter(v[0]) && v == [v[0]] + v[1..];
    }
  }

  // ----- The encoding -----

  function Encode(b: seq<Byte>): string { Spell(Pack(b)) }

  function Decode(s: string): Option<seq<Byte>> {
    match Read(s)
    case None => None
    case Some(v) => Unpack(v)
  }

  lemma DecodeOfEncode(b: seq<Byte>)
    ensures Decode(Encode(b)) == Some(b)
  {
    ReadOfSpell(Pack(b));
    UnpackOfPack(b);
  }

  /** An encoding is made of letters only, so it splits no field around it. */
  lemma EncodeLetters(b: seq<Byte>)
    ensures forall c | c in Encode(b) :: IsLetter(c)
  {
    var v := Pack(b);
    forall i | 0 <= i < |Spell(v)| ensures IsLetter(Spell(v)[i]) { RankOfLetter(v[i]); }
  }

  // ----- The standard's own terms -----

  /** Three bytes and their four sextets are the same twenty-four bits, most significant first. */
  lemma QuantumBits(x: Byte, y: Byte, z: Byte)
    ensures ((S0(x) * 64 + S1(x, y)) * 64 + S2(y, z)) * 64 + S3(z) == (x * 256 + y) * 256 + z
  {
  }

  /** The alphabet of table 1 of RFC 4648: capitals, small letters, digits, plus and slash. */
  lemma Alphabet(v: Sextet)
    ensures Letter(0) == 'A' && Letter(26) == 'a' && Letter(52) == '0' && Letter(62) == '+' && Letter(63) == '/'
    ensures v < 25 || 26 <= v < 51 || 52 <= v < 61 ==> Letter(v + 1) as int == Letter(v) as int + 1
  {
  }

  /** Line breaks anywhere in the text are skipped. */
  lemma {:induction false} LineBreaksSkipped(a: string, c: char, b: string)
    requires c == '\r' || c == '\n'
    ensures Decode(a + [c] + b) == Decode(a + b)
  {
    ReadSkips(a, c, b);
  }

  lemma {:induction false} ReadSkips(a: string, c: char, b: string)
    requires c == '\r' || c == '\n'
    ensures Read(a + [c] + b) == Read(a + b)
  {
    hide IsLetter, Rank;
    var s, t := a + [c] + b, a + b;
    if a == "" {
      assert s[0] == c && s[1..] == b && t == b;
    } else {
      assert s[0] == t[0] == a[0] && s[1..] == a[1..] + [c] + b && t[1..] == a[1..] + b;
      ReadSkips(a[1..], c, b);
    }
  }

  /** Four letters make three bytes, and one letter too many is an error. */
  lemma {:induction false} UnpackLength(v: seq<Sextet>)
    ensures Unpack(v).Some? <==> |v| % 4 != 1
    ensures Unpack(v).Some? ==> |Unpack(v).value| == |v| * 3 / 4
  {
    if |v| > 3 { UnpackLength(v[4..]); }
  }
}
