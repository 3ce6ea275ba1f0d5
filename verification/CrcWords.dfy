/** Machine words as bit strings: what ties the CRC code to the register over bits. */
module CrcWords {
  import opened CrcRegister

  lemma ShiftByCases(r: seq<bool>, p: seq<bool>)
    requires |r| == |p| > 0
    ensures Shift(r, p) == if r[0] then Xor(r[1..] + [false], p) else r[1..] + [false]
  {}

  function Mirror(s: seq<bool>): (t: seq<bool>)
    ensures |t| == |s|
    ensures forall i :: 0 <= i < |s| ==> t[i] == s[|s| - 1 - i]
  {
    seq(|s|, i requires 0 <= i < |s| => s[|s| - 1 - i])
  }

  lemma MirrorXor(a: seq<bool>, b: seq<bool>)
    requires |a| == |b|
    ensures Mirror(Xor(a, b)) == Xor(Mirror(a), Mirror(b))
  {}

  // ----- 8-bit words

  /** The mask of bit i, counted from the most significant. */
  function Mask8(i: nat): bv8
    requires i < 8
  {
    match i
    case 0 => 0x80 case 1 => 0x40 case 2 => 0x20 case 3 => 0x10
    case 4 => 0x08 case 5 => 0x04 case 6 => 0x02 case _ => 0x01
  }

  predicate At8(r: bv8, i: nat)
    requires i < 8
  {
    Hit8(r, Mask8(i))
  }

  predicate Hit8(r: bv8, m: bv8) {
    r & m != 0
  }

  /** The bits of a word, most significant first. */
  function Bits8(r: bv8): (s: seq<bool>)
    ensures |s| == 8
  {
    seq(8, i requires 0 <= i < 8 => At8(r, i))
  }

  lemma MaskFacts8(i: nat)
    requires i < 8
    ensures Mask8(i) & (Mask8(i) - 1) == 0
    ensures i + 1 < 8 ==> Mask8(i) == Mask8(i + 1) << 1 && Mask8(i + 1) & 0x80 == 0
    ensures Mask8(0) == 0x80
    ensures i + 1 == 8 ==> Mask8(i) == 1
  {}

  lemma XorMask8(a: bv8, b: bv8, m: bv8)
    requires m & (m - 1) == 0
    ensures Hit8(a ^ b, m) <==> Hit8(a, m) != Hit8(b, m)
  {}

  lemma LeftMask8(r: bv8, m: bv8)
    requires m & 0x80 == 0
    ensures Hit8(r << 1, m << 1) <==> Hit8(r, m)
    ensures !Hit8(r << 1, 1)
  {}

  lemma XorAt8(a: bv8, b: bv8, i: nat)
    requires i < 8
    ensures At8(a ^ b, i) == (At8(a, i) != At8(b, i))
  {
    hide Mask8, Hit8;
    MaskFacts8(i);
    XorMask8(a, b, Mask8(i));
  }

  lemma LeftAt8(r: bv8, i: nat)
    requires i < 8
    ensures At8(r << 1, i) == (i + 1 < 8 && At8(r, i + 1))
  {
    hide Mask8, Hit8;
    MaskFacts8(i);
    LeftMask8(r, if i + 1 < 8 then Mask8(i + 1) else 0);
  }

  lemma XorBits8(a: bv8, b: bv8)
    ensures Bits8(a ^ b) == Xor(Bits8(a), Bits8(b))
  {
    hide At8;
    forall i | 0 <= i < 8 ensures Bits8(a ^ b)[i] == Xor(Bits8(a), Bits8(b))[i] {
      XorAt8(a, b, i);
    }
  }

  lemma LeftBits8(r: bv8)
    ensures Bits8(r << 1) == Bits8(r)[1..] + [false]
  {
    hide At8;
    forall i | 0 <= i < 8 ensures Bits8(r << 1)[i] == (Bits8(r)[1..] + [false])[i] {
      LeftAt8(r, i);
    }
  }

  // the mirror image: shifts to the right, least significant bit first

  /** One clock LSB first: `if (r & 1) r = (r >> 1) ^ poly; else r >>= 1;` */
  function RightStep8(r: bv8, poly: bv8): bv8 {
    if Odd8(r) then Sum8(Half8(r), poly) else Half8(r)
  }

  predicate Odd8(r: bv8) { r & 1 != 0 }
  function Half8(r: bv8): bv8 { r >> 1 }
  function Sum8(a: bv8, b: bv8): bv8 { a ^ b }

  /** The bits of a word, least significant first. */
  function LowBits8(r: bv8): (s: seq<bool>)
    ensures |s| == 8
  {
    Mirror(Bits8(r))
  }

  lemma RightMask8(r: bv8, m: bv8)
    ensures Hit8(r >> 1, m) <==> Hit8(r, m << 1)
    ensures !Hit8(r >> 1, 0x80)
  {}

  lemma RightAt8(r: bv8, i: nat)
    requires i < 8
    ensures At8(r >> 1, i) == (i > 0 && At8(r, i - 1))
  {
    hide Mask8, Hit8;
    if i > 0 {
      MaskFacts8(i - 1);
    } else {
      MaskFacts8(0);
    }
    RightMask8(r, Mask8(i));
  }

  lemma RightBits8(r: bv8)
    ensures Bits8(r >> 1) == [false] + Bits8(r)[..7]
  {
    hide At8;
    forall i | 0 <= i < 8 ensures Bits8(r >> 1)[i] == ([false] + Bits8(r)[..7])[i] {
      RightAt8(r, i);
    }
  }

  lemma LastBit8(r: bv8)
    ensures Bits8(r)[7] == (r & 1 != 0)
  {}

  /** Read LSB first, the right-shifting clock is the same register. */
  lemma RightLow8(r: bv8)
    ensures LowBits8(Half8(r)) == LowBits8(r)[1..] + [false]
    ensures LowBits8(r)[0] == Odd8(r)
  {
    hide Bits8;
    RightBits8(r);
    LastBit8(r);
  }

  lemma LowXor8(a: bv8, b: bv8)
    ensures LowBits8(Sum8(a, b)) == Xor(LowBits8(a), LowBits8(b))
  {
    hide Bits8;
    XorBits8(a, b);
    MirrorXor(Bits8(a), Bits8(b));
  }

  lemma RightStepBits8(r: bv8, poly: bv8)
    ensures LowBits8(RightStep8(r, poly)) == Shift(LowBits8(r), LowBits8(poly))
  {
    hide LowBits8, Shift, Odd8, Half8, Sum8;
    RightLow8(r);
    LowXor8(Half8(r), poly);
    ShiftByCases(LowBits8(r), LowBits8(poly));
  }

  /** `x <<= 1; x |= y & 1;` appends the last bit of y. */
  lemma AppendBit8(x: bv8, y: bv8)
    ensures Bits8((x << 1) | (y & 1)) == Bits8(x)[1..] + [Bits8(y)[7]]
  {
    hide Bits8;
    AppendAsXor8(x, y);
    LeftBits8(x);
    XorBits8(x << 1, y & 1);
    LowBitOnly8(y);
  }

  lemma AppendAsXor8(x: bv8, y: bv8)
    ensures (x << 1) | (y & 1) == (x << 1) ^ (y & 1)
  {}

  lemma LowBitOnly8(y: bv8)
    ensures Bits8(y & 1) == Zeros(7) + [Bits8(y)[7]]
  {
    hide At8;
    var s, u := Bits8(y & 1), Zeros(7) + [Bits8(y)[7]];
    forall i | 0 <= i < 8 ensures s[i] == u[i] {
      LowBitAt8(y, i);
    }
  }

  lemma LowBitAt8(y: bv8, i: nat)
    requires i < 8
    ensures At8(y & 1, i) == (i == 7 && At8(y, i))
  {}

  /** The word with the given bits, most significant first. */
  function Pack8(b0: bool, b1: bool, b2: bool, b3: bool, b4: bool, b5: bool, b6: bool, b7: bool): bv8
  {
    (if b0 then 0x80 else 0) | (if b1 then 0x40 else 0) | (if b2 then 0x20 else 0) | (if b3 then 0x10 else 0)
    | (if b4 then 0x08 else 0) | (if b5 then 0x04 else 0) | (if b6 then 0x02 else 0) | (if b7 then 0x01 else 0)
  }

  function Word8(s: seq<bool>): bv8
    requires |s| == 8
  {
    Pack8(s[0], s[1], s[2], s[3], s[4], s[5], s[6], s[7])
  }

  lemma PackMasks8(r: bv8)
    ensures Pack8(Hit8(r, 0x80), Hit8(r, 0x40), Hit8(r, 0x20), Hit8(r, 0x10),
                  Hit8(r, 0x08), Hit8(r, 0x04), Hit8(r, 0x02), Hit8(r, 0x01)) == r
  {
    Pick8(r, 0x80); Pick8(r, 0x40); Pick8(r, 0x20); Pick8(r, 0x10);
    Pick8(r, 0x08); Pick8(r, 0x04); Pick8(r, 0x02); Pick8(r, 0x01);
    assert (r & 0x80) | (r & 0x40) | (r & 0x20) | (r & 0x10)
           | (r & 0x08) | (r & 0x04) | (r & 0x02) | (r & 0x01) == r;
  }

  lemma Pick8(r: bv8, m: bv8)
    requires m & (m - 1) == 0
    ensures (if Hit8(r, m) then m else 0) == r & m
  {}

  /** A word is its bits. */
  lemma WordOfBits8(r: bv8)
    ensures Word8(Bits8(r)) == r
  {
    hide Pack8, Hit8;
    PackMasks8(r);
  }

  lemma SameBits8(a: bv8, b: bv8)
    requires Bits8(a) == Bits8(b)
    ensures a == b
  {
    hide Word8, Bits8;
    WordOfBits8(a);
    WordOfBits8(b);
  }

  // ----- 16-bit words

  /** The mask of bit i, counted from the most significant. */
  function Mask16(i: nat): bv16
    requires i < 16
  {
    match i
    case 0 => 0x8000 case 1 => 0x4000 case 2 => 0x2000 case 3 => 0x1000
    case 4 => 0x0800 case 5 => 0x0400 case 6 => 0x0200 case 7 => 0x0100
    case 8 => 0x0080 case 9 => 0x0040 case 10 => 0x0020 case 11 => 0x0010
    case 12 => 0x0008 case 13 => 0x0004 case 14 => 0x0002 case _ => 0x0001
  }

  predicate At16(r: bv16, i: nat)
    requires i < 16
  {
    Hit16(r, Mask16(i))
  }

  predicate Hit16(r: bv16, m: bv16) {
    r & m != 0
  }

  /** The bits of a word, most significant first. */
  function Bits16(r: bv16): (s: seq<bool>)
    ensures |s| == 16
  {
    seq(16, i requires 0 <= i < 16 => At16(r, i))
  }

  /** One clock of the code: `if (r & top) r = (r << 1) ^ poly; else r <<= 1;` */
  function Step16(r: bv16, poly: bv16): bv16 {
    if r & 0x8000 != 0 then (r << 1) ^ poly else r << 1
  }

  lemma MaskFacts16(i: nat)
    requires i < 16
    ensures Mask16(i) & (Mask16(i) - 1) == 0
    ensures i + 1 < 16 ==> Mask16(i) == Mask16(i + 1) << 1 && Mask16(i + 1) & 0x8000 == 0
    ensures Mask16(0) == 0x8000
    ensures i + 1 == 16 ==> Mask16(i) == 1
  {}

  lemma XorMask16(a: bv16, b: bv16, m: bv16)
    requires m & (m - 1) == 0
    ensures Hit16(a ^ b, m) <==> Hit16(a, m) != Hit16(b, m)
  {}

  lemma LeftMask16(r: bv16, m: bv16)
    requires m & 0x8000 == 0
    ensures Hit16(r << 1, m << 1) <==> Hit16(r, m)
    ensures !Hit16(r << 1, 1)
  {}

  lemma XorAt16(a: bv16, b: bv16, i: nat)
    requires i < 16
    ensures At16(a ^ b, i) == (At16(a, i) != At16(b, i))
  {
    hide Mask16, Hit16;
    MaskFacts16(i);
    XorMask16(a, b, Mask16(i));
  }

  lemma LeftAt16(r: bv16, i: nat)
    requires i < 16
    ensures At16(r << 1, i) == (i + 1 < 16 && At16(r, i + 1))
  {
    hide Mask16, Hit16;
    MaskFacts16(i);
    LeftMask16(r, if i + 1 < 16 then Mask16(i + 1) else 0);
  }

  lemma XorBits16(a: bv16, b: bv16)
    ensures Bits16(a ^ b) == Xor(Bits16(a), Bits16(b))
  {
    hide At16;
    forall i | 0 <= i < 16 ensures Bits16(a ^ b)[i] == Xor(Bits16(a), Bits16(b))[i] {
      XorAt16(a, b, i);
    }
  }

  lemma LeftBits16(r: bv16)
    ensures Bits16(r << 1) == Bits16(r)[1..] + [false]
  {
    hide At16;
    forall i | 0 <= i < 16 ensures Bits16(r << 1)[i] == (Bits16(r)[1..] + [false])[i] {
      LeftAt16(r, i);
    }
  }

  /** The code's clock is the register's. */
  lemma StepBits16(r: bv16, poly: bv16)
    ensures Bits16(Step16(r, poly)) == Shift(Bits16(r), Bits16(poly))
  {
    hide Bits16, Shift;
    TopBit16(r);
    ShiftByCases(Bits16(r), Bits16(poly));
    if r & 0x8000 != 0 {
      XorBits16(r << 1, poly);
    }
    LeftBits16(r);
  }

  // the mirror image: shifts to the right, least significant bit first

  /** One clock LSB first: `if (r & 1) r = (r >> 1) ^ poly; else r >>= 1;` */
  function RightStep16(r: bv16, poly: bv16): bv16 {
    if Odd16(r) then Sum16(Half16(r), poly) else Half16(r)
  }

  predicate Odd16(r: bv16) { r & 1 != 0 }
  function Half16(r: bv16): bv16 { r >> 1 }
  function Sum16(a: bv16, b: bv16): bv16 { a ^ b }

  /** The bits of a word, least significant first. */
  function LowBits16(r: bv16): (s: seq<bool>)
    ensures |s| == 16
  {
    Mirror(Bits16(r))
  }

  lemma RightMask16(r: bv16, m: bv16)
    ensures Hit16(r >> 1, m) <==> Hit16(r, m << 1)
    ensures !Hit16(r >> 1, 0x8000)
  {}

  lemma RightAt16(r: bv16, i: nat)
    requires i < 16
    ensures At16(r >> 1, i) == (i > 0 && At16(r, i - 1))
  {
    hide Mask16, Hit16;
    if i > 0 {
      MaskFacts16(i - 1);
    } else {
      MaskFacts16(0);
    }
    RightMask16(r, Mask16(i));
  }

  lemma RightBits16(r: bv16)
    ensures Bits16(r >> 1) == [false] + Bits16(r)[..15]
  {
    hide At16;
    forall i | 0 <= i < 16 ensures Bits16(r >> 1)[i] == ([false] + Bits16(r)[..15])[i] {
      RightAt16(r, i);
    }
  }

  lemma LastBit16(r: bv16)
    ensures Bits16(r)[15] == (r & 1 != 0)
  {}

  /** Read LSB first, the right-shifting clock is the same register. */
  lemma RightLow16(r: bv16)
    ensures LowBits16(Half16(r)) == LowBits16(r)[1..] + [false]
    ensures LowBits16(r)[0] == Odd16(r)
  {
    hide Bits16;
    RightBits16(r);
    LastBit16(r);
  }

  lemma LowXor16(a: bv16, b: bv16)
    ensures LowBits16(Sum16(a, b)) == Xor(LowBits16(a), LowBits16(b))
  {
    hide Bits16;
    XorBits16(a, b);
    MirrorXor(Bits16(a), Bits16(b));
  }

  lemma RightStepBits16(r: bv16, poly: bv16)
    ensures LowBits16(RightStep16(r, poly)) == Shift(LowBits16(r), LowBits16(poly))
  {
    hide LowBits16, Shift, Odd16, Half16, Sum16;
    RightLow16(r);
    LowXor16(Half16(r), poly);
    ShiftByCases(LowBits16(r), LowBits16(poly));
  }

  /** `x <<= 1; x |= y & 1;` appends the last bit of y. */
  lemma AppendBit16(x: bv16, y: bv16)
    ensures Bits16((x << 1) | (y & 1)) == Bits16(x)[1..] + [Bits16(y)[15]]
  {
    hide Bits16;
    AppendAsXor16(x, y);
    LeftBits16(x);
    XorBits16(x << 1, y & 1);
    LowBitOnly16(y);
  }

  lemma AppendAsXor16(x: bv16, y: bv16)
    ensures (x << 1) | (y & 1) == (x << 1) ^ (y & 1)
  {}

  lemma LowBitOnly16(y: bv16)
    ensures Bits16(y & 1) == Zeros(15) + [Bits16(y)[15]]
  {
    hide At16;
    var s, u := Bits16(y & 1), Zeros(15) + [Bits16(y)[15]];
    forall i | 0 <= i < 16 ensures s[i] == u[i] {
      LowBitAt16(y, i);
    }
  }

  lemma LowBitAt16(y: bv16, i: nat)
    requires i < 16
    ensures At16(y & 1, i) == (i == 15 && At16(y, i))
  {}

  lemma TopBit16(r: bv16)
    ensures Bits16(r)[0] == (r & 0x8000 != 0)
  {}

  // ----- a word as two bytes

  function Hi(r: bv16): bv8 { ((r >> 8) & 0xff) as bv8 }
  function Lo(r: bv16): bv8 { (r & 0xff) as bv8 }

  lemma MaskHalves(i: nat)
    requires i < 8
    ensures Mask16(i) == (Mask8(i) as bv16) << 8 && Mask16(i + 8) == Mask8(i) as bv16
  {}

  lemma HitHalves(r: bv16, m: bv8)
    ensures Hit16(r, (m as bv16) << 8) == Hit8(Hi(r), m) && Hit16(r, m as bv16) == Hit8(Lo(r), m)
  {}

  lemma AtHalves(r: bv16, i: nat)
    requires i < 8
    ensures At16(r, i) == At8(Hi(r), i) && At16(r, i + 8) == At8(Lo(r), i)
  {
    hide Mask8, Mask16, Hit8, Hit16, Hi, Lo;
    MaskHalves(i);
    HitHalves(r, Mask8(i));
  }

  lemma BitsOfHalves(r: bv16)
    ensures Bits16(r) == Bits8(Hi(r)) + Bits8(Lo(r))
  {
    hide At8, At16, Hi, Lo;
    forall i | 0 <= i < 16 ensures Bits16(r)[i] == (Bits8(Hi(r)) + Bits8(Lo(r)))[i] {
      AtHalves(r, if i < 8 then i else i - 8);
    }
  }

  lemma JoinHalves(a: bv16, b: bv16)
    requires Hi(a) == Hi(b) && Lo(a) == Lo(b)
    ensures a == b
  {}

  /** A word is its bits. */
  lemma SameBits16(a: bv16, b: bv16)
    requires Bits16(a) == Bits16(b)
    ensures a == b
  {
    hide Bits8, Bits16, Hi, Lo;
    BitsOfHalves(a);
    BitsOfHalves(b);
    assert Bits8(Hi(a)) == Bits16(a)[..8] && Bits8(Hi(b)) == Bits16(b)[..8];
    assert Bits8(Lo(a)) == Bits16(a)[8..] && Bits8(Lo(b)) == Bits16(b)[8..];
    SameBits8(Hi(a), Hi(b));
    SameBits8(Lo(a), Lo(b));
    JoinHalves(a, b);
  }

  /** A byte placed in the high half. */
  lemma HighByteBits(b: bv8)
    ensures Bits16((b as bv16) << 8) == Pad(Bits8(b), 16)
  {
    hide Bits8, Bits16, Hi, Lo;
    var w := (b as bv16) << 8;
    HighByteHalves(b);
    BitsOfHalves(w);
    ZeroBits8();
  }

  lemma HighByteHalves(b: bv8)
    ensures Hi((b as bv16) << 8) == b && Lo((b as bv16) << 8) == 0
  {}

  lemma ZeroBits8()
    ensures Bits8(0) == Zeros(8)
  {
    hide Mask8;
    assert forall i :: 0 <= i < 8 ==> !Bits8(0)[i];
  }
}
