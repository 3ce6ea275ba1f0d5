/**
  The encoding of base64.c as section 4 of RFC 4648 describes it: the bits of the text are
  the bits of the bytes, in groups of six.
 */
module Base64Bits {
  import opened Base64
  import opened CrcRegister
  import opened CrcWords
  import opened CrcSpec

  // ----- the alphabet of the RFC, in its order

  lemma Alphabet1()
    ensures Symbol(0) == 0x41 && Symbol(1) == 0x42 && Symbol(2) == 0x43 && Symbol(3) == 0x44      // ABCD
    ensures Symbol(4) == 0x45 && Symbol(5) == 0x46 && Symbol(6) == 0x47 && Symbol(7) == 0x48      // EFGH
    ensures Symbol(8) == 0x49 && Symbol(9) == 0x4a && Symbol(10) == 0x4b && Symbol(11) == 0x4c      // IJKL
    ensures Symbol(12) == 0x4d && Symbol(13) == 0x4e && Symbol(14) == 0x4f && Symbol(15) == 0x50      // MNOP
  {}

  lemma Alphabet2()
    ensures Symbol(16) == 0x51 && Symbol(17) == 0x52 && Symbol(18) == 0x53 && Symbol(19) == 0x54      // QRST
    ensures Symbol(20) == 0x55 && Symbol(21) == 0x56 && Symbol(22) == 0x57 && Symbol(23) == 0x58      // UVWX
    ensures Symbol(24) == 0x59 && Symbol(25) == 0x5a && Symbol(26) == 0x61 && Symbol(27) == 0x62      // YZab
    ensures Symbol(28) == 0x63 && Symbol(29) == 0x64 && Symbol(30) == 0x65 && Symbol(31) == 0x66      // cdef
  {}

  lemma Alphabet3()
    ensures Symbol(32) == 0x67 && Symbol(33) == 0x68 && Symbol(34) == 0x69 && Symbol(35) == 0x6a      // ghij
    ensures Symbol(36) == 0x6b && Symbol(37) == 0x6c && Symbol(38) == 0x6d && Symbol(39) == 0x6e      // klmn
    ensures Symbol(40) == 0x6f && Symbol(41) == 0x70 && Symbol(42) == 0x71 && Symbol(43) == 0x72      // opqr
    ensures Symbol(44) == 0x73 && Symbol(45) == 0x74 && Symbol(46) == 0x75 && Symbol(47) == 0x76      // stuv
  {}

  lemma Alphabet4()
    ensures Symbol(48) == 0x77 && Symbol(49) == 0x78 && Symbol(50) == 0x79 && Symbol(51) == 0x7a      // wxyz
    ensures Symbol(52) == 0x30 && Symbol(53) == 0x31 && Symbol(54) == 0x32 && Symbol(55) == 0x33      // 0123
    ensures Symbol(56) == 0x34 && Symbol(57) == 0x35 && Symbol(58) == 0x36 && Symbol(59) == 0x37      // 4567
    ensures Symbol(60) == 0x38 && Symbol(61) == 0x39 && Symbol(62) == 0x2b && Symbol(63) == 0x2f      // 89+/
  {}

  /** Every other byte is read as zero. */
  lemma OutsideIsZero(c: bv8)
    ensures !InAlphabet(c) ==> Index(c) == 0
    ensures InAlphabet(c) ==> Index(c) < 64 && Symbol(Index(c)) == c
  {}

  // ----- bits

  /** The six bits that a symbol stands for. */
  function SixBits(v: bv8): (s: seq<bool>)
    ensures |s| == 6
  {
    Bits8(v)[2..]
  }

  /** The bits of a text; padding has none. */
  function TextBits(s: seq<bv8>): seq<bool> {
    if s == [] then []
    else TextBits(s[..|s| - 1]) + if s[|s| - 1] == PAD then [] else SixBits(Index(s[|s| - 1]))
  }

  lemma BitsAre(v: bv8)
    ensures Bits8(v)[0] == Hit8(v, 0x80) && Bits8(v)[1] == Hit8(v, 0x40)
    ensures Bits8(v)[2] == Hit8(v, 0x20) && Bits8(v)[3] == Hit8(v, 0x10)
    ensures Bits8(v)[4] == Hit8(v, 0x08) && Bits8(v)[5] == Hit8(v, 0x04)
    ensures Bits8(v)[6] == Hit8(v, 0x02) && Bits8(v)[7] == Hit8(v, 0x01)
  {
    hide Hit8;
  }

  lemma SextetBits1(a: bv8, b: bv8, c: bv8)
    ensures Hit8(Sextet(Triple(a, b, c), 18), 0x20) == Hit8(a, 0x80)
    ensures Hit8(Sextet(Triple(a, b, c), 18), 0x10) == Hit8(a, 0x40)
    ensures Hit8(Sextet(Triple(a, b, c), 18), 0x8) == Hit8(a, 0x20)
    ensures Hit8(Sextet(Triple(a, b, c), 18), 0x4) == Hit8(a, 0x10)
    ensures Hit8(Sextet(Triple(a, b, c), 18), 0x2) == Hit8(a, 0x8)
    ensures Hit8(Sextet(Triple(a, b, c), 18), 0x1) == Hit8(a, 0x4)
  {}

  lemma SextetBits2(a: bv8, b: bv8, c: bv8)
    ensures Hit8(Sextet(Triple(a, b, c), 12), 0x20) == Hit8(a, 0x2)
    ensures Hit8(Sextet(Triple(a, b, c), 12), 0x10) == Hit8(a, 0x1)
    ensures Hit8(Sextet(Triple(a, b, c), 12), 0x8) == Hit8(b, 0x80)
    ensures Hit8(Sextet(Triple(a, b, c), 12), 0x4) == Hit8(b, 0x40)
    ensures Hit8(Sextet(Triple(a, b, c), 12), 0x2) == Hit8(b, 0x20)
    ensures Hit8(Sextet(Triple(a, b, c), 12), 0x1) == Hit8(b, 0x10)
  {}

  lemma SextetBits3(a: bv8, b: bv8, c: bv8)
    ensures Hit8(Sextet(Triple(a, b, c), 6), 0x20) == Hit8(b, 0x8)
    ensures Hit8(Sextet(Triple(a, b, c), 6), 0x10) == Hit8(b, 0x4)
    ensures Hit8(Sextet(Triple(a, b, c), 6), 0x8) == Hit8(b, 0x2)
    ensures Hit8(Sextet(Triple(a, b, c), 6), 0x4) == Hit8(b, 0x1)
    ensures Hit8(Sextet(Triple(a, b, c), 6), 0x2) == Hit8(c, 0x80)
    ensures Hit8(Sextet(Triple(a, b, c), 6), 0x1) == Hit8(c, 0x40)
  {}

  lemma SextetBits4(a: bv8, b: bv8, c: bv8)
    ensures Hit8(Sextet(Triple(a, b, c), 0), 0x20) == Hit8(c, 0x20)
    ensures Hit8(Sextet(Triple(a, b, c), 0), 0x10) == Hit8(c, 0x10)
    ensures Hit8(Sextet(Triple(a, b, c), 0), 0x8) == Hit8(c, 0x8)
    ensures Hit8(Sextet(Triple(a, b, c), 0), 0x4) == Hit8(c, 0x4)
    ensures Hit8(Sextet(Triple(a, b, c), 0), 0x2) == Hit8(c, 0x2)
    ensures Hit8(Sextet(Triple(a, b, c), 0), 0x1) == Hit8(c, 0x1)
  {}

  lemma FirstSix(a: bv8, b: bv8, c: bv8)
    ensures SixBits(Sextet(Triple(a, b, c), 18)) == Bits8(a)[..6]
  {
    hide Bits8, Hit8, Sextet, Triple;
    var v := Sextet(Triple(a, b, c), 18);
    BitsAre(a);
    BitsAre(v);
    SextetBits1(a, b, c);
    var s, u := SixBits(v), Bits8(a)[..6];
    assert s[0] == u[0] && s[1] == u[1] && s[2] == u[2];
    assert s[3] == u[3] && s[4] == u[4] && s[5] == u[5];
  }

  lemma SecondSix(a: bv8, b: bv8, c: bv8)
    ensures SixBits(Sextet(Triple(a, b, c), 12)) == Bits8(a)[6..] + Bits8(b)[..4]
  {
    hide Bits8, Hit8, Sextet, Triple;
    var v := Sextet(Triple(a, b, c), 12);
    BitsAre(a);
    BitsAre(b);
    BitsAre(v);
    SextetBits2(a, b, c);
    var s, u := SixBits(v), Bits8(a)[6..] + Bits8(b)[..4];
    assert s[0] == u[0] && s[1] == u[1] && s[2] == u[2];
    assert s[3] == u[3] && s[4] == u[4] && s[5] == u[5];
  }

  lemma ThirdSix(a: bv8, b: bv8, c: bv8)
    ensures SixBits(Sextet(Triple(a, b, c), 6)) == Bits8(b)[4..] + Bits8(c)[..2]
  {
    hide Bits8, Hit8, Sextet, Triple;
    var v := Sextet(Triple(a, b, c), 6);
    BitsAre(b);
    BitsAre(c);
    BitsAre(v);
    SextetBits3(a, b, c);
    var s, u := SixBits(v), Bits8(b)[4..] + Bits8(c)[..2];
    assert s[0] == u[0] && s[1] == u[1] && s[2] == u[2];
    assert s[3] == u[3] && s[4] == u[4] && s[5] == u[5];
  }

  lemma FourthSix(a: bv8, b: bv8, c: bv8)
    ensures SixBits(Sextet(Triple(a, b, c), 0)) == Bits8(c)[2..]
  {
    hide Bits8, Hit8, Sextet, Triple;
    var v := Sextet(Triple(a, b, c), 0);
    BitsAre(c);
    BitsAre(v);
    SextetBits4(a, b, c);
    var s, u := SixBits(v), Bits8(c)[2..];
    assert s[0] == u[0] && s[1] == u[1] && s[2] == u[2];
    assert s[3] == u[3] && s[4] == u[4] && s[5] == u[5];
  }

  /** The four sextets of three bytes hold their bits in order. */
  lemma QuadBits(a: bv8, b: bv8, c: bv8)
    ensures var t := Triple(a, b, c);
            SixBits(Sextet(t, 18)) + SixBits(Sextet(t, 12)) + SixBits(Sextet(t, 6)) + SixBits(Sextet(t, 0))
              == Bits8(a) + Bits8(b) + Bits8(c)
  {
    hide Bits8, SixBits, Sextet, Triple;
    FirstSix(a, b, c);
    SecondSix(a, b, c);
    ThirdSix(a, b, c);
    FourthSix(a, b, c);
    Regrouped(Bits8(a), Bits8(b), Bits8(c));
  }

  lemma Regrouped(a: seq<bool>, b: seq<bool>, c: seq<bool>)
    requires |a| == |b| == |c| == 8
    ensures a[..6] + (a[6..] + b[..4]) + (b[4..] + c[..2]) + c[2..] == a + b + c
  {
    assert a[..6] + a[6..] == a && b[..4] + b[4..] == b && c[..2] + c[2..] == c;
  }

  lemma {:induction false} TextBitsAppend(a: seq<bv8>, b: seq<bv8>)
    ensures TextBits(a + b) == TextBits(a) + TextBits(b)
    decreases |b|
  {
    hide SixBits, Index;
    if b == [] {
      assert a + b == a;
    } else {
      assert (a + b)[..|a + b| - 1] == a + b[..|b| - 1];
      TextBitsAppend(a, b[..|b| - 1]);
    }
  }

  lemma TextBitsOfOne(c: bv8)
    ensures TextBits([c]) == if c == PAD then [] else SixBits(Index(c))
  {
    hide SixBits, Index;
    assert [c][..0] == [];
  }

  /** A symbol of the alphabet is no padding and gives its index back. */
  lemma SymbolBits(i: bv8)
    requires i < 64
    ensures TextBits([Symbol(i)]) == SixBits(i)
  {
    hide SixBits, Index, Symbol, InAlphabet;
    TextBitsOfOne(Symbol(i));
    IndexOfSymbol(i);
    PadIsZero();
  }

  /** The bits of the first n symbols of a group. */
  lemma GroupBits(a: bv8, b: bv8, c: bv8)
    ensures var t := Triple(a, b, c);
            var q := Quad(a, b, c);
            && TextBits(q[..2]) == SixBits(Sextet(t, 18)) + SixBits(Sextet(t, 12))
            && TextBits(q[..3]) == SixBits(Sextet(t, 18)) + SixBits(Sextet(t, 12)) + SixBits(Sextet(t, 6))
            && TextBits(q)
               == SixBits(Sextet(t, 18)) + SixBits(Sextet(t, 12)) + SixBits(Sextet(t, 6)) + SixBits(Sextet(t, 0))
  {
    hide SixBits, Index, Symbol, Triple, Sextet, TextBits;
    var t := Triple(a, b, c);
    var q := Quad(a, b, c);
    OctetsOfTriple(a, b, c);
    SextetsJoin(t);
    SymbolBits(Sextet(t, 18));
    SymbolBits(Sextet(t, 12));
    SymbolBits(Sextet(t, 6));
    SymbolBits(Sextet(t, 0));
    assert q[..2] == [q[0]] + [q[1]] && q[..3] == q[..2] + [q[2]] && q == q[..3] + [q[3]];
    TextBitsAppend([q[0]], [q[1]]);
    TextBitsAppend(q[..2], [q[2]]);
    TextBitsAppend(q[..3], [q[3]]);
  }

  lemma PadBits()
    ensures TextBits([PAD]) == [] && TextBits([PAD, PAD]) == []
  {
    assert [PAD, PAD] == [PAD] + [PAD];
    TextBitsAppend([PAD], [PAD]);
    TextBitsOfOne(PAD);
  }

  lemma ByteBits(a: bv8, b: bv8, c: bv8)
    ensures MessageBits([a]) == Bits8(a) && MessageBits([a, b]) == Bits8(a) + Bits8(b)
    ensures MessageBits([a, b, c]) == Bits8(a) + Bits8(b) + Bits8(c)
  {
    hide Bits8;
    assert [a][..0] == [] && [a, b][..1] == [a] && [a, b, c][..2] == [a, b];
  }

  /** The zero bits that fill the last symbol. */
  function Filled(n: nat): nat {
    match n % 3
    case 0 => 0
    case 1 => 4
    case _ => 2
  }

  lemma OneByte(a: bv8)
    ensures TextBits(Quad(a, 0, 0)[..2] + [PAD, PAD]) == Bits8(a) + Zeros(4)
  {
    hide Quad, SixBits, TextBits, Bits8, Sextet, Triple;
    GroupBits(a, 0, 0);
    QuadBits(a, 0, 0);
    ZeroBits8();
    PadBits();
    TextBitsAppend(Quad(a, 0, 0)[..2], [PAD, PAD]);
    var t := Triple(a, 0, 0);
    var all := SixBits(Sextet(t, 18)) + SixBits(Sextet(t, 12)) + SixBits(Sextet(t, 6)) + SixBits(Sextet(t, 0));
    assert all[..12] == SixBits(Sextet(t, 18)) + SixBits(Sextet(t, 12));
    assert (Bits8(a) + Bits8(0) + Bits8(0))[..12] == Bits8(a) + Zeros(4);
  }

  lemma TwoBytesBits(a: bv8, b: bv8)
    ensures TextBits(Quad(a, b, 0)[..3] + [PAD]) == Bits8(a) + Bits8(b) + Zeros(2)
  {
    hide Quad, SixBits, TextBits, Bits8, Sextet, Triple;
    GroupBits(a, b, 0);
    QuadBits(a, b, 0);
    ZeroBits8();
    PadBits();
    TextBitsAppend(Quad(a, b, 0)[..3], [PAD]);
    var t := Triple(a, b, 0);
    var all := SixBits(Sextet(t, 18)) + SixBits(Sextet(t, 12)) + SixBits(Sextet(t, 6)) + SixBits(Sextet(t, 0));
    assert all[..18] == SixBits(Sextet(t, 18)) + SixBits(Sextet(t, 12)) + SixBits(Sextet(t, 6));
    assert (Bits8(a) + Bits8(b) + Bits8(0))[..18] == Bits8(a) + Bits8(b) + Zeros(2);
  }

  /** For every byte string, the bits of its encoding are its own bits and the zeros that fill
      the last symbol. */
  lemma {:induction false} EncodeBits(x: seq<bv8>)
    ensures TextBits(Encode(x)) == MessageBits(x) + Zeros(Filled(|x|))
    decreases |x|, 1
  {
    hide Quad, SixBits, TextBits, Bits8, MessageBits;
    if x == [] {
      NoBits();
    } else if |x| == 1 {
      ByteBits(x[0], 0, 0);
      OneByte(x[0]);
      assert x == [x[0]];
    } else if |x| == 2 {
      ByteBits(x[0], x[1], 0);
      TwoBytesBits(x[0], x[1]);
      assert x == [x[0], x[1]];
    } else {
      var first, rest := [x[0], x[1], x[2]], x[3..];
      assert x == first + rest;
      LongBits(x[0], x[1], x[2], rest);
    }
  }

  lemma {:induction false} LongBits(a: bv8, b: bv8, c: bv8, rest: seq<bv8>)
    ensures TextBits(Encode([a, b, c] + rest)) == MessageBits([a, b, c] + rest) + Zeros(Filled(|[a, b, c] + rest|))
    decreases |rest| + 3, 0
  {
    hide TextBits, MessageBits, Encode;
    ThreeBytes(a, b, c, rest);
    EncodeBits(rest);
    MessageBitsAppend([a, b, c], rest);
    assert Filled(|[a, b, c] + rest|) == Filled(|rest|);
  }

  lemma NoBits()
    ensures TextBits([]) == [] && MessageBits([]) == [] && Zeros(0) == []
  {}

  lemma ThreeBytes(a: bv8, b: bv8, c: bv8, rest: seq<bv8>)
    ensures TextBits(Encode([a, b, c] + rest)) == MessageBits([a, b, c]) + TextBits(Encode(rest))
  {
    hide Quad, TextBits, MessageBits, Encode;
    GroupIsBytes(a, b, c);
    EncodeStep(a, b, c, rest);
    TextBitsAppend(Quad(a, b, c), Encode(rest));
  }

  lemma EncodeStep(a: bv8, b: bv8, c: bv8, rest: seq<bv8>)
    ensures Encode([a, b, c] + rest) == Quad(a, b, c) + Encode(rest)
  {
    hide Quad;
    assert ([a, b, c] + rest)[3..] == rest;
  }

  lemma GroupIsBytes(a: bv8, b: bv8, c: bv8)
    ensures TextBits(Quad(a, b, c)) == MessageBits([a, b, c])
  {
    hide Quad, SixBits, TextBits, Bits8, MessageBits, Sextet, Triple;
    ByteBits(a, b, c);
    GroupBits(a, b, c);
    QuadBits(a, b, c);
  }

  // ----- decoding

  /** Six bits for every character of a text, those outside the alphabet and the padding included. */
  function AllBits(s: seq<bv8>): (b: seq<bool>)
    ensures |b| == 6 * |s|
  {
    if s == [] then [] else AllBits(s[..|s| - 1]) + SixBits(Index(s[|s| - 1]))
  }

  lemma {:induction false} AllBitsAppend(a: seq<bv8>, b: seq<bv8>)
    ensures AllBits(a + b) == AllBits(a) + AllBits(b)
    decreases |b|
  {
    hide SixBits, Index;
    if b == [] {
      assert a + b == a;
    } else {
      assert (a + b)[..|a + b| - 1] == a + b[..|b| - 1];
      AllBitsAppend(a, b[..|b| - 1]);
    }
  }

  lemma AllBitsOfFour(q: seq<bv8>)
    requires |q| == 4
    ensures AllBits(q) == SixBits(Index(q[0])) + SixBits(Index(q[1])) + SixBits(Index(q[2])) + SixBits(Index(q[3]))
  {
    hide SixBits, Index;
    assert q[..3][..2] == q[..2] && q[..2][..1] == q[..1] && q[..1][..0] == [];
    assert AllBits(q[..1]) == SixBits(Index(q[0]));
    assert AllBits(q[..2]) == AllBits(q[..1]) + SixBits(Index(q[1]));
    assert AllBits(q[..3]) == AllBits(q[..2]) + SixBits(Index(q[2]));
  }

  /** The three octets of a group hold the bits of its four characters. */
  lemma OctetBits(q: seq<bv8>)
    requires |q| == 4
    ensures MessageBits(Octets(q)) == AllBits(q)
  {
    hide SixBits, Index, Bits8, Sextet, Triple, Joined, Octet0, Octet1, Octet2, AllBits, MessageBits;
    var a, b, c, d := Index(q[0]), Index(q[1]), Index(q[2]), Index(q[3]);
    IndexFits(q[0]);
    IndexFits(q[1]);
    IndexFits(q[2]);
    IndexFits(q[3]);
    var t := Joined(a, b, c, d);
    SextetsOfJoined(a, b, c, d);
    TripleOfOctets(t);
    QuadBits(Octet0(t), Octet1(t), Octet2(t));
    ByteBits(Octet0(t), Octet1(t), Octet2(t));
    AllBitsOfFour(q);
  }

  lemma IndexFits(c: bv8)
    ensures Index(c) < 64
  {}

  lemma {:induction false} MessageBitsCut(x: seq<bv8>, n: nat)
    requires n <= |x|
    ensures |MessageBits(x)| == 8 * |x| && MessageBits(x[..n]) == MessageBits(x)[..8 * n]
  {
    hide MessageBits;
    assert x == x[..n] + x[n..];
    MessageBitsAppend(x[..n], x[n..]);
  }

  /** For every text of whole groups: the octets are as many as the groups hold, less one for
      each of the last two characters that is a '=', and their bits are the first ones of the text. */
  lemma {:induction false} DecodeBits(s: seq<bv8>)
    requires WholeQuads(s)
    ensures |Decode(s)|
         == |s| / 4 * 3 - (if s[|s| - 1] == 0x3d then 1 else 0) - (if s[|s| - 2] == 0x3d then 1 else 0)
    ensures MessageBits(Decode(s)) == AllBits(s)[..8 * |Decode(s)|]
    decreases |s|
  {
    hide Octets, AllBits, MessageBits;
    if |s| == 4 {
      OctetBits(s);
      MessageBitsCut(Octets(s), 3 - Pads(s));
    } else {
      OctetBits(s[..4]);
      DecodeBits(s[4..]);
      assert s == s[..4] + s[4..];
      AllBitsAppend(s[..4], s[4..]);
      MessageBitsAppend(Octets(s[..4]), Decode(s[4..]));
    }
  }
}
