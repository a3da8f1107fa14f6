/** Base 64 encoding of binary values, and its inverse after section 4 of RFC 4648. */
module Base64 {
  import opened Common

  /** The alphabet: capitals, small letters, digits, '+' and '/'. */
  function Digit(v: nat): (c: char)
    requires v < 64
    ensures Value(c) == v && c != '='
  {
    if v < 26 then 'A' + v as char
    else if v < 52 then 'a' + (v - 26) as char
    else if v < 62 then '0' + (v - 52) as char
    else if v == 62 then '+'
    else '/'
  }

  /** The value of a character of the alphabet. */
  function Value(c: char): (v: nat)
    ensures v < 64
  {
    if 'A' <= c <= 'Z' then (c - 'A') as nat
    else if 'a' <= c <= 'z' then (c - 'a') as nat + 26
    else if '0' <= c <= '9' then (c - '0') as nat + 52
    else if c == '+' then 62
    else 63
  }

  // ---- Groups of three bytes ----

  /** The 24 bits of three bytes, in four pieces of six. */
  function Sextets(x: nat, y: nat, z: nat): (r: (nat, nat, nat, nat))
    requires x < 256 && y < 256 && z < 256
    ensures r.0 < 64 && r.1 < 64 && r.2 < 64 && r.3 < 64
    ensures ((r.0 * 64 + r.1) * 64 + r.2) * 64 + r.3 == (x * 256 + y) * 256 + z
  {
    (x / 4, x % 4 * 16 + y / 16, y % 16 * 4 + z / 64, z % 64)
  }

  function Group(a: Byte, b: Byte, c: Byte): (g: string)
    ensures |g| == 4 && g[0] != '=' && g[1] != '=' && g[2] != '=' && g[3] != '='
  {
    var (p, q, r, s) := Sextets(a as nat, b as nat, c as nat);
    [Digit(p), Digit(q), Digit(r), Digit(s)]
  }

  function Encode(data: seq<Byte>): string {
    if |data| >= 3 then Group(data[0], data[1], data[2]) + Encode(data[3..])
    else if |data| == 2 then Group(data[0], data[1], 0)[..3] + "="
    else if |data| == 1 then Group(data[0], 0, 0)[..2] + "=="
    else []
  }

  /** The 24 bits of four characters. */
  function Bits(c: string): (n: nat)
    requires |c| == 4
    ensures n < 0x100_0000
  {
    ((Value(c[0]) * 64 + Value(c[1])) * 64 + Value(c[2])) * 64 + Value(c[3])
  }

  function Bytes(n: nat): (data: seq<Byte>)
    requires n < 0x100_0000
    ensures |data| == 3
  {
    [(n / 65536) as Byte, (n / 256 % 256) as Byte, (n % 256) as Byte]
  }

  /** Four characters at a time, the last with up to two characters of padding. */
  function Decode(text: string): seq<Byte> {
    if |text| < 4 then []
    else if text[2] == '=' then Bytes(Bits(text[..2] + "AA"))[..1]
    else if text[3] == '=' then Bytes(Bits(text[..3] + "A"))[..2]
    else Bytes(Bits(text[..4])) + Decode(text[4..])
  }

  lemma BytesBack(a: Byte, b: Byte, c: Byte)
    ensures Bytes((a as nat * 256 + b as nat) * 256 + c as nat) == [a, b, c]
  {
  }

  lemma GroupBits(a: Byte, b: Byte, c: Byte)
    ensures Bytes(Bits(Group(a, b, c))) == [a, b, c]
  {
    assert Bits(Group(a, b, c)) == (a as nat * 256 + b as nat) * 256 + c as nat;
    BytesBack(a, b, c);
  }

  /** Sextets that hold no byte of their own are zero. */
  lemma GroupZeros(a: Byte, b: Byte)
    ensures Group(a, b, 0)[3] == 'A' && Group(a, 0, 0)[2] == 'A'
  {
  }

  lemma {:induction false} DecodeGroup(a: Byte, b: Byte, c: Byte, rest: string)
    ensures Decode(Group(a, b, c) + rest) == [a, b, c] + Decode(rest)
  {
    var g := Group(a, b, c);
    var text := g + rest;
    assert text[2] == g[2] && text[3] == g[3];
    assert text[..4] == g && text[4..] == rest;
    GroupBits(a, b, c);
  }

  lemma DecodePair(a: Byte, b: Byte)
    ensures Decode(Group(a, b, 0)[..3] + "=") == [a, b]
  {
    var g := Group(a, b, 0);
    var text := g[..3] + "=";
    GroupZeros(a, b);
    assert text[..3] + "A" == g;
    GroupBits(a, b, 0);
  }

  lemma DecodeSingle(a: Byte)
    ensures Decode(Group(a, 0, 0)[..2] + "==") == [a]
  {
    var g := Group(a, 0, 0);
    var text := g[..2] + "==";
    GroupZeros(a, 0);
    assert text[..2] + "AA" == g;
    GroupBits(a, 0, 0);
  }

  /** What is encoded is decoded again. */
  lemma {:induction false} DecodeEncode(data: seq<Byte>)
    ensures Decode(Encode(data)) == data
    decreases |data|
  {
    if |data| >= 3 {
      DecodeGroup(data[0], data[1], data[2], Encode(data[3..]));
      DecodeEncode(data[3..]);
    } else if |data| == 2 {
      DecodePair(data[0], data[1]);
    } else if |data| == 1 {
      DecodeSingle(data[0]);
    }
  }

  /** The encoding of the first i bytes, i a multiple of three, and of the rest. */
  lemma {:induction false} EncodeSplit(data: seq<Byte>, i: nat)
    requires i % 3 == 0 && i <= |data|
    ensures Encode(data) == Encode(data[..i]) + Encode(data[i..])
    decreases i
  {
    if i > 0 {
      EncodeSplit(data[3..], i - 3);
      assert data[..i][3..] == data[3..][..i - 3];
      assert data[3..][i - 3..] == data[i..];
    } else {
      assert data[0..] == data;
    }
  }

  lemma EncodeThree(data: seq<Byte>, i: nat)
    requires i % 3 == 0 && i + 3 <= |data|
    ensures Encode(data[..i + 3]) == Encode(data[..i]) + Group(data[i], data[i + 1], data[i + 2])
  {
    var d := data[..i + 3];
    EncodeSplit(d, i);
    assert d[..i] == data[..i] && d[i..][3..] == [];
    assert Encode(d[i..]) == Group(data[i], data[i + 1], data[i + 2]) + Encode([]);
  }

  /** Padding stands at the end only, as much as is missing from the last three bytes. */
  ghost predicate PaddedAtEnd(text: string, n: nat) {
    && |text| == (n + 2) / 3 * 4
    && forall i :: 0 <= i < |text| ==> (text[i] == '=' <==> n % 3 != 0 && i >= |text| - (3 - n % 3))
  }

  lemma {:induction false} EncodeShape(data: seq<Byte>)
    ensures PaddedAtEnd(Encode(data), |data|)
    decreases |data|
  {
    if |data| >= 3 {
      EncodeShape(data[3..]);
      PaddedLonger(Group(data[0], data[1], data[2]), Encode(data[3..]), |data| - 3);
    }
  }

  lemma PaddedLonger(g: string, rest: string, n: nat)
    requires |g| == 4 && g[0] != '=' && g[1] != '=' && g[2] != '=' && g[3] != '=' && PaddedAtEnd(rest, n)
    ensures PaddedAtEnd(g + rest, n + 3)
  {
    forall i | 0 <= i < |g + rest|
      ensures (g + rest)[i] == '=' <==> (n + 3) % 3 != 0 && i >= |g + rest| - (3 - (n + 3) % 3)
    {
      if i >= 4 {
        assert (g + rest)[i] == rest[i - 4];
      }
    }
  }

  /** A multiple of three below another is three below it. */
  lemma RoomForThree(n: nat, i: nat)
    requires i % 3 == 0 && i < n - n % 3
    ensures i + 3 <= n - n % 3
  {
    assert i == 3 * (i / 3) && n - n % 3 == 3 * (n / 3);
  }

  /** Appends the encoding, three bytes at a time. */
  method Append(os: string, data: seq<Byte>) returns (os': string)
    ensures os' == os + Encode(data)
  {
    var i, rem := 0, |data| % 3;
    os' := os;
    while i != |data| - rem
      invariant i <= |data| - rem && i % 3 == 0
      invariant os' == os + Encode(data[..i])
      decreases |data| - i
    {
      RoomForThree(|data|, i);
      EncodeThree(data, i);
      Reassociate(os, Encode(data[..i]), Group(data[i], data[i + 1], data[i + 2]));
      os' := os' + Group(data[i], data[i + 1], data[i + 2]);
      i := i + 3;
    }
    EncodeSplit(data, i);
    Reassociate(os, Encode(data[..i]), Encode(data[i..]));
    os' := os' + Remainder(data[i..]);
  }

  /** The one or two bytes left over. */
  function Remainder(data: seq<Byte>): (text: string)
    requires |data| < 3
    ensures text == Encode(data)
  {
    match |data|
    case 2 => Group(data[0], data[1], 0)[..3] + "="
    case 1 => Group(data[0], 0, 0)[..2] + "=="
    case _ => []
  }

  // ---- Character by character ----

  const CAPITALS := "ABCDEFGHIJKLMNOPQRSTUVWXYZ"
  const SMALL := "abcdefghijklmnopqrstuvwxyz"
  const DIGITS := "0123456789"

  lemma CapitalAt(v: nat)
    requires v < 26
    ensures |CAPITALS| == 26 && CAPITALS[v] == 'A' + v as char
  {
  }

  lemma SmallAt(v: nat)
    requires v < 26
    ensures |SMALL| == 26 && SMALL[v] == 'a' + v as char
  {
  }

  lemma DigitAt(v: nat)
    requires v < 10
    ensures |DIGITS| == 10 && DIGITS[v] == '0' + v as char
  {
  }

  /** Table 1 of RFC 4648. */
  const ALPHABET := CAPITALS + SMALL + DIGITS + "+/"

  lemma DigitIsLetter(v: nat)
    requires v < 64
    ensures |ALPHABET| == 64 && Digit(v) == ALPHABET[v]
  {
    if v < 26 {
      CapitalAt(v);
    } else if v < 52 {
      SmallAt(v - 26);
    } else if v < 62 {
      DigitAt(v - 52);
    }
  }

  /** Byte k, and zero behind the data. */
  function ByteAt(data: seq<Byte>, k: nat): (b: nat)
    ensures b < 256
  {
    if k < |data| then data[k] as nat else 0
  }

  /** The 24 bits of group g. */
  function BitsOf(data: seq<Byte>, g: nat): (n: nat)
    ensures n < 0x100_0000
  {
    (ByteAt(data, 3 * g) * 256 + ByteAt(data, 3 * g + 1)) * 256 + ByteAt(data, 3 * g + 2)
  }

  /** Six of them. */
  function Sextet(n: nat, j: nat): (v: nat)
    requires n < 0x100_0000 && j < 4
    ensures v < 64
  {
    if j == 3 then n % 64 else if j == 2 then n / 64 % 64 else if j == 1 then n / 64 / 64 % 64 else n / 64 / 64 / 64
  }

  lemma SextetsAre(x: nat, y: nat, z: nat)
    requires x < 256 && y < 256 && z < 256
    ensures var r, n := Sextets(x, y, z), (x * 256 + y) * 256 + z;
            n < 0x100_0000 && r == (Sextet(n, 0), Sextet(n, 1), Sextet(n, 2), Sextet(n, 3))
  {
    var r := Sextets(x, y, z);
    Digits64(r.0, r.1);
    Digits64(r.0 * 64 + r.1, r.2);
    Digits64((r.0 * 64 + r.1) * 64 + r.2, r.3);
  }

  lemma Digits64(q: nat, d: nat)
    requires d < 64
    ensures (q * 64 + d) / 64 == q && (q * 64 + d) % 64 == d
  {
  }

  lemma GroupAt(a: Byte, b: Byte, c: Byte, j: nat)
    requires j < 4
    ensures var n := (a as nat * 256 + b as nat) * 256 + c as nat;
            n < 0x100_0000 && Group(a, b, c)[j] == Digit(Sextet(n, j))
  {
    SextetsAre(a as nat, b as nat, c as nat);
  }

  /** Character i of a group with n bytes of data. */
  ghost predicate CharacterIs(c: char, data: seq<Byte>, i: nat) {
    c == if 3 * i >= 4 * |data| then '=' else Digit(Sextet(BitsOf(data, i / 4), i % 4))
  }

  lemma FirstGroup(data: seq<Byte>, i: nat)
    requires i < |Encode(data)| && i < 4
    ensures CharacterIs(Encode(data)[i], data, i)
  {
    var x, y, z := ByteAt(data, 0), ByteAt(data, 1), ByteAt(data, 2);
    var g := Group(x as Byte, y as Byte, z as Byte);
    GroupAt(x as Byte, y as Byte, z as Byte, i);
    FirstOf(data, g, i);
    FirstIs(Encode(data)[i], data, g[i], i);
  }

  lemma FirstIs(c: char, data: seq<Byte>, d: char, i: nat)
    requires i < 4 && c == if 3 * i >= 4 * |data| then '=' else d
    requires d == Digit(Sextet((ByteAt(data, 0) * 256 + ByteAt(data, 1)) * 256 + ByteAt(data, 2), i))
    ensures CharacterIs(c, data, i)
  {
    assert i / 4 == 0 && i % 4 == i;
  }

  lemma FirstOf(data: seq<Byte>, g: string, i: nat)
    requires i < |Encode(data)| && i < 4
    requires g == Group(ByteAt(data, 0) as Byte, ByteAt(data, 1) as Byte, ByteAt(data, 2) as Byte)
    ensures Encode(data)[i] == if 3 * i >= 4 * |data| then '=' else g[i]
  {
    if |data| >= 3 {
      assert ByteAt(data, 0) as Byte == data[0] && ByteAt(data, 1) as Byte == data[1];
      assert ByteAt(data, 2) as Byte == data[2];
    } else {
      LastOf(data, g, i);
    }
  }

  lemma LastOf(data: seq<Byte>, g: string, i: nat)
    requires i < |Encode(data)| && i < 4 && |data| < 3
    requires g == Group(ByteAt(data, 0) as Byte, ByteAt(data, 1) as Byte, ByteAt(data, 2) as Byte)
    ensures Encode(data)[i] == if 3 * i >= 4 * |data| then '=' else g[i]
  {
    if |data| == 2 {
      assert ByteAt(data, 2) as Byte == 0;
    } else {
      assert ByteAt(data, 1) as Byte == 0 && ByteAt(data, 2) as Byte == 0;
    }
  }

  lemma NextGroup(data: seq<Byte>, i: nat, c: char)
    requires |data| >= 3 && i >= 4 && CharacterIs(c, data[3..], i - 4)
    ensures CharacterIs(c, data, i)
  {
    assert BitsOf(data, i / 4) == BitsOf(data[3..], i / 4 - 1);
  }

  lemma {:induction false} CharactersAre(data: seq<Byte>, i: nat)
    requires i < |Encode(data)|
    ensures CharacterIs(Encode(data)[i], data, i)
  {
    if i < 4 {
      FirstGroup(data, i);
    } else {
      CharactersAre(data[3..], i - 4);
      NextGroup(data, i, Encode(data[3..])[i - 4]);
    }
  }

  /** Character i stands for six bits of the data, which zeros follow, or is padding if there are
      none left. */
  lemma EncodedAs(data: seq<Byte>, i: nat)
    requires i < |Encode(data)|
    ensures Encode(data)[i] == if 3 * i >= 4 * |data| then '=' else ALPHABET[Sextet(BitsOf(data, i / 4), i % 4)]
  {
    CharactersAre(data, i);
    DigitIsLetter(Sextet(BitsOf(data, i / 4), i % 4));
  }
}
