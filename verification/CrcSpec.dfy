/** CRCs of byte strings, as words, and what holds of them for every message. */
module CrcSpec {
  import opened CrcRegister
  import opened CrcWords

  const CCITT: bv16 := 0x1021

  /** The message as it enters the register: bytes in order, each most significant bit first. */
  function MessageBits(m: seq<bv8>): (s: seq<bool>)
    ensures |s| == 8 * |m|
  {
    if m == [] then [] else MessageBits(m[..|m| - 1]) + Bits8(m[|m| - 1])
  }

  lemma {:induction false} MessageBitsAppend(a: seq<bv8>, b: seq<bv8>)
    ensures MessageBits(a + b) == MessageBits(a) + MessageBits(b)
    decreases |b|
  {
    if b == [] {
      assert a + b == a;
    } else {
      assert (a + b)[..|a + b| - 1] == a + b[..|b| - 1];
      MessageBitsAppend(a, b[..|b| - 1]);
    }
  }

  /** Different messages of one length have different bits. */
  lemma {:induction false} SameMessageBits(a: seq<bv8>, b: seq<bv8>)
    requires |a| == |b| && MessageBits(a) == MessageBits(b)
    ensures a == b
    decreases |a|
  {
    hide Bits8;
    if a != [] {
      var n := 8 * (|a| - 1);
      assert MessageBits(a)[..n] == MessageBits(a[..|a| - 1]) && MessageBits(b)[..n] == MessageBits(b[..|b| - 1]);
      assert MessageBits(a)[n..] == Bits8(a[|a| - 1]) && MessageBits(b)[n..] == Bits8(b[|b| - 1]);
      SameMessageBits(a[..|a| - 1], b[..|b| - 1]);
      SameBits8(a[|a| - 1], b[|b| - 1]);
    }
  }

  /** The word with the given bits. */
  function Word16(s: seq<bool>): bv16
    requires |s| == 16
  {
    ((Word8(s[..8]) as bv16) << 8) | (Word8(s[8..]) as bv16)
  }

  lemma WordOfBits16(r: bv16)
    ensures Word16(Bits16(r)) == r
  {
    hide Word8, Bits8, Bits16, Hi, Lo;
    BitsOfHalves(r);
    assert Bits16(r)[..8] == Bits8(Hi(r)) && Bits16(r)[8..] == Bits8(Lo(r));
    WordOfBits8(Hi(r));
    WordOfBits8(Lo(r));
    HalvesJoined(r);
  }

  lemma HalvesJoined(r: bv16)
    ensures ((Hi(r) as bv16) << 8) | (Lo(r) as bv16) == r
  {}

  /** The register after the message. */
  function Register(init: bv16, poly: bv16, m: seq<bv8>): (s: seq<bool>)
    ensures |s| == 16
  {
    FeedBits(Bits16(init), Bits16(poly), MessageBits(m))
  }

  /** The CRC of a message, MSB first, from any seed and polynomial. */
  function Crc(init: bv16, poly: bv16, m: seq<bv8>): bv16 {
    Word16(Register(init, poly, m))
  }

  /** A word that holds the register is the CRC. */
  lemma CrcIs(r: bv16, init: bv16, poly: bv16, m: seq<bv8>)
    requires Bits16(r) == Register(init, poly, m)
    ensures r == Crc(init, poly, m)
  {
    hide Word16, Bits16, Register;
    WordOfBits16(r);
  }

  lemma PackedBits8(b0: bool, b1: bool, b2: bool, b3: bool, b4: bool, b5: bool, b6: bool, b7: bool)
    ensures Hit8(Pack8(b0, b1, b2, b3, b4, b5, b6, b7), 0x80) == b0
    ensures Hit8(Pack8(b0, b1, b2, b3, b4, b5, b6, b7), 0x40) == b1
    ensures Hit8(Pack8(b0, b1, b2, b3, b4, b5, b6, b7), 0x20) == b2
    ensures Hit8(Pack8(b0, b1, b2, b3, b4, b5, b6, b7), 0x10) == b3
    ensures Hit8(Pack8(b0, b1, b2, b3, b4, b5, b6, b7), 0x8) == b4
    ensures Hit8(Pack8(b0, b1, b2, b3, b4, b5, b6, b7), 0x4) == b5
    ensures Hit8(Pack8(b0, b1, b2, b3, b4, b5, b6, b7), 0x2) == b6
    ensures Hit8(Pack8(b0, b1, b2, b3, b4, b5, b6, b7), 0x1) == b7
  {}

  lemma BitsOfWord8(s: seq<bool>)
    requires |s| == 8
    ensures Bits8(Word8(s)) == s
  {
    hide At8, Word8;
    forall i | 0 <= i < 8 ensures Bits8(Word8(s))[i] == s[i] {
      BitOfWord8(s, i);
    }
  }

  lemma BitOfWord8(s: seq<bool>, i: nat)
    requires |s| == 8 && i < 8
    ensures At8(Word8(s), i) == s[i]
  {
    hide Pack8, Hit8;
    PackedBits8(s[0], s[1], s[2], s[3], s[4], s[5], s[6], s[7]);
  }

  lemma JoinedHalves(h: bv8, l: bv8)
    ensures Hi(((h as bv16) << 8) | (l as bv16)) == h && Lo(((h as bv16) << 8) | (l as bv16)) == l
  {}

  lemma BitsOfWord16(s: seq<bool>)
    requires |s| == 16
    ensures Bits16(Word16(s)) == s
  {
    hide Word8, Bits8, Bits16, Hi, Lo;
    JoinedHalves(Word8(s[..8]), Word8(s[8..]));
    BitsOfHalves(Word16(s));
    BitsOfWord8(s[..8]);
    BitsOfWord8(s[8..]);
  }

  lemma BitsOfCrc(init: bv16, poly: bv16, m: seq<bv8>)
    ensures Bits16(Crc(init, poly, m)) == Register(init, poly, m)
  {
    hide Word16, Bits16, Register;
    BitsOfWord16(Register(init, poly, m));
  }

  // ----- messages in pieces

  lemma RegisterAppend(r: bv16, init: bv16, poly: bv16, a: seq<bv8>, b: seq<bv8>)
    requires Bits16(r) == Register(init, poly, a)
    ensures Register(init, poly, a + b) == Register(r, poly, b)
  {
    hide Bits16, FeedBits, MessageBits;
    MessageBitsAppend(a, b);
    FeedBitsAppend(Bits16(init), Bits16(poly), MessageBits(a), MessageBits(b));
  }

  /** A CRC may be continued from the value reached so far. */
  lemma CrcAppend(init: bv16, poly: bv16, a: seq<bv8>, b: seq<bv8>)
    ensures Crc(init, poly, a + b) == Crc(Crc(init, poly, a), poly, b)
  {
    hide Word16, Bits16, Register;
    BitsOfCrc(init, poly, a);
    RegisterAppend(Crc(init, poly, a), init, poly, a, b);
  }

  // ----- what the CRC detects

  /** Two messages of one length that differ only inside sixteen consecutive bits have
      different CRCs, from any seed, for any polynomial with a constant term. */
  lemma BurstChangesCrc(init: bv16, poly: bv16, a: seq<bv8>, b: seq<bv8>, start: nat)
    requires poly & 1 != 0
    requires |a| == |b| && a != b
    requires forall i :: 0 <= i < 8 * |a| && !(start <= i < start + 16) ==> MessageBits(a)[i] == MessageBits(b)[i]
    ensures Crc(init, poly, a) != Crc(init, poly, b)
  {
    hide Bits16, FeedBits, MessageBits, Crc;
    LastBit16(poly);
    if MessageBits(a) == MessageBits(b) {
      SameMessageBits(a, b);
    }
    BurstDetected(Bits16(init), Bits16(poly), MessageBits(a), MessageBits(b), start);
    BitsOfCrc(init, poly, a);
    BitsOfCrc(init, poly, b);
  }

  /** A message followed by its own CRC, high byte first, has CRC zero. */
  lemma CrcOfCodeword(init: bv16, poly: bv16, m: seq<bv8>)
    ensures var c := Crc(init, poly, m); Crc(init, poly, m + [Hi(c), Lo(c)]) == 0
  {
    hide Bits16, Bits8, FeedBits, Crc, Word16, Hi, Lo;
    var c := Crc(init, poly, m);
    BitsOfCrc(init, poly, m);
    RegisterAppend(c, init, poly, m, [Hi(c), Lo(c)]);
    TwoBytes(Hi(c), Lo(c));
    BitsOfHalves(c);
    FeedSelf(Bits16(c), Bits16(poly));
    ZeroBits16();
    CrcIs(0, init, poly, m + [Hi(c), Lo(c)]);
  }

  lemma TwoBytes(x: bv8, y: bv8)
    ensures MessageBits([x, y]) == Bits8(x) + Bits8(y)
  {
    hide Bits8;
    assert [x, y][..1] == [x] && [x][..0] == [];
    assert MessageBits([x]) == Bits8(x);
  }

  lemma ZeroBits16()
    ensures Bits16(0) == Zeros(16)
  {
    hide Mask16;
    assert forall i :: 0 <= i < 16 ==> !Bits16(0)[i];
  }

  // ----- the seed 0xffff, sixteen clocks on

  lemma Clock(r: bv16, next: bv16, n: nat, last: bv16)
    requires Step16(r, CCITT) == next
    requires ShiftBy(Bits16(next), Bits16(CCITT), n) == Bits16(last)
    ensures ShiftBy(Bits16(r), Bits16(CCITT), n + 1) == Bits16(last)
  {
    hide Bits16, Step16;
    StepBits16(r, CCITT);
  }

  /** Dividing from the seed 0xffff is the direct form from 0x1d0f. */
  lemma SeedFfffAhead()
    ensures ShiftBy(Bits16(0xffff), Bits16(CCITT), 16) == Bits16(0x1d0f)
  {
    hide Bits16, ShiftBy;
    assert ShiftBy(Bits16(0x1d0f), Bits16(CCITT), 0) == Bits16(0x1d0f) by { NoClock(0x1d0f); }
    Clock(0x8697, 0x1d0f, 0, 0x1d0f);
    Clock(0xcb5b, 0x8697, 1, 0x1d0f);
    Clock(0xedbd, 0xcb5b, 2, 0x1d0f);
    Clock(0xfece, 0xedbd, 3, 0x1d0f);
    Clock(0x7f67, 0xfece, 4, 0x1d0f);
    Clock(0xb7a3, 0x7f67, 5, 0x1d0f);
    Clock(0xd3c1, 0xb7a3, 6, 0x1d0f);
    Clock(0xe1f0, 0xd3c1, 7, 0x1d0f);
    Clock(0x70f8, 0xe1f0, 8, 0x1d0f);
    Clock(0x387c, 0x70f8, 9, 0x1d0f);
    Clock(0x1c3e, 0x387c, 10, 0x1d0f);
    Clock(0x0e1f, 0x1c3e, 11, 0x1d0f);
    Clock(0x8f1f, 0x0e1f, 12, 0x1d0f);
    Clock(0xcf9f, 0x8f1f, 13, 0x1d0f);
    Clock(0xefdf, 0xcf9f, 14, 0x1d0f);
    Clock(0xffff, 0xefdf, 15, 0x1d0f);
  }

  lemma NoClock(r: bv16)
    ensures ShiftBy(Bits16(r), Bits16(CCITT), 0) == Bits16(r)
  {}
}
