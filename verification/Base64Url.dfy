/** The base64url encoding without padding (section 5 of RFC 4648), and its lenient reader. */
module Base64Url {
  import opened Domain

  type Byte = b: nat | b < 256
  type Bytes = seq<Byte>
  type Sextet = v: nat | v < 64

  function Symbol(v: Sextet): char {
    if v < 26 then (v + 'A' as int) as char
    else if v < 52 then (v - 26 + 'a' as int) as char
    else if v < 62 then (v - 52 + '0' as int) as char
    else if v == 62 then '-'
    else '_'
  }

  /** Both alphabets are read; any other character is nothing. */
  function ValueOf(c: char): Option<Sextet> {
    if 'A' <= c <= 'Z' then Some(c as int - 'A' as int)
    else if 'a' <= c <= 'z' then Some(c as int - 'a' as int + 26)
    else if '0' <= c <= '9' then Some(c as int - '0' as int + 52)
    else if c == '-' || c == '+' then Some(62)
    else if c == '_' || c == '/' then Some(63)
    else None
  }

  /** Three octets make four sextets; one or two at the end make two or three. */
  function Sextets(bs: Bytes): seq<Sextet> {
    if bs == [] then []
    else if |bs| == 1 then [bs[0] / 4, bs[0] % 4 * 16]
    else if |bs| == 2 then [bs[0] / 4, bs[0] % 4 * 16 + bs[1] / 16, bs[1] % 16 * 4]
    else [bs[0] / 4, bs[0] % 4 * 16 + bs[1] / 16, bs[1] % 16 * 4 + bs[2] / 64, bs[2] % 64] + Sextets(bs[3..])
  }

  function High(a: Sextet, b: Sextet): Byte { a as int * 4 + b as int / 16 }

  function Middle(a: Sextet, b: Sextet): Byte { a as int % 16 * 16 + b as int / 4 }

  function Low(a: Sextet, b: Sextet): Byte { a as int % 4 * 64 + b as int }

  function Octets(vs: seq<Sextet>): Bytes {
    if |vs| < 2 then []
    else if |vs| == 2 then [High(vs[0], vs[1])]
    else if |vs| == 3 then [High(vs[0], vs[1]), Middle(vs[1], vs[2])]
    else [High(vs[0], vs[1]), Middle(vs[1], vs[2]), Low(vs[2], vs[3])] + Octets(vs[4..])
  }

  function Symbols(vs: seq<Sextet>): string {
    if vs == [] then "" else [Symbol(vs[0])] + Symbols(vs[1..])
  }

  function Values(s: string): seq<Sextet> {
    if s == [] then []
    else (match ValueOf(s[0]) case Some(v) => [v] case None => []) + Values(s[1..])
  }

  function Encode(bs: Bytes): string { Symbols(Sextets(bs)) }

  function Decode(s: string): Bytes { Octets(Values(s)) }

  lemma GroupReadsBack(a: Byte, b: Byte, c: Byte)
    ensures High(a / 4, a % 4 * 16 + b / 16) == a && High(a / 4, a % 4 * 16) == a
    ensures Middle(a % 4 * 16 + b / 16, b % 16 * 4 + c / 64) == b && Middle(a % 4 * 16 + b / 16, b % 16 * 4) == b
    ensures Low(b % 16 * 4 + c / 64, c % 64) == c
  {
  }

  lemma {:induction false} OctetsOfSextets(bs: Bytes)
    ensures Octets(Sextets(bs)) == bs
  {
    if |bs| == 1 {
      GroupReadsBack(bs[0], 0, 0);
    } else if |bs| == 2 {
      GroupReadsBack(bs[0], bs[1], 0);
    } else if |bs| >= 3 {
      OctetsOfSextets(bs[3..]);
      GroupReadsBack(bs[0], bs[1], bs[2]);
      assert Sextets(bs)[4..] == Sextets(bs[3..]);
      hide High, Middle, Low;
      assert [bs[0], bs[1], bs[2]] + bs[3..] == bs;
    }
  }

  lemma {:induction false} ValuesOfSymbols(vs: seq<Sextet>)
    ensures Values(Symbols(vs)) == vs
  {
    if vs != [] {
      ValuesOfSymbols(vs[1..]);
      assert Symbols(vs)[1..] == Symbols(vs[1..]);
      assert ValueOf(Symbol(vs[0])) == Some(vs[0]);
    }
  }

  /** Reading an encoding gives the octets back, whatever their number. */
  lemma DecodeEncode(bs: Bytes)
    ensures Decode(Encode(bs)) == bs
  {
    OctetsOfSextets(bs);
    ValuesOfSymbols(Sextets(bs));
  }

  /** No symbol is a dot. */
  lemma {:induction false} NoDots(vs: seq<Sextet>)
    ensures '.' !in Symbols(vs)
  {
    if vs != [] {
      NoDots(vs[1..]);
    }
  }

  /** Test vectors of section 10 of RFC 4648, without padding, and the two symbols of section 5. */
  lemma Vectors()
    ensures Encode([0x66]) == "Zg"
    ensures Encode([0x66, 0x6f]) == "Zm8"
    ensures Encode([0x66, 0x6f, 0x6f]) == "Zm9v"
    ensures Encode([0xfb, 0xff]) == "-_8"
  {
    SextetVectors();
    SymbolsOf([25, 32]);
    SymbolsOf([25, 38, 60]);
    SymbolsOf([25, 38, 61, 47]);
    SymbolsOf([62, 63, 60]);
    hide Sextets, Symbols;
  }

  lemma SextetVectors()
    ensures Sextets([0x66]) == [25, 32]
    ensures Sextets([0x66, 0x6f]) == [25, 38, 60]
    ensures Sextets([0x66, 0x6f, 0x6f]) == [25, 38, 61, 47]
    ensures Sextets([0xfb, 0xff]) == [62, 63, 60]
  {
    assert Sextets([0x66, 0x6f, 0x6f]) == [25, 38, 61, 47] + Sextets([]);
  }

  lemma {:induction false} SymbolsOf(vs: seq<Sextet>)
    ensures |Symbols(vs)| == |vs| && forall i :: 0 <= i < |vs| ==> Symbols(vs)[i] == Symbol(vs[i])
  {
    if vs != [] {
      SymbolsOf(vs[1..]);
      assert forall i :: 1 <= i < |vs| ==> vs[i] == vs[1..][i - 1];
    }
  }
}
