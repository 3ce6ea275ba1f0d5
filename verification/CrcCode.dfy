/** app/GUI/Kids_A20/crc16.c: the byte-wise CRC with pluggable bit orders. */
module Crc16C {
  import opened CrcRegister
  import opened CrcWords
  import opened CrcSpec

  // ----- bit order

  /** The byte with its bits in the opposite order. */
  function Reversed8(v: bv8): bv8 {
    Word8(LowBits8(v))
  }

  function Reversed16(v: bv16): bv16 {
    Word16(LowBits16(v))
  }

  /** What one turn of the reversing loops does to the two bit strings. */
  lemma ReverseTurn(b: seq<bool>, i: nat)
    requires i < |b|
    ensures [false] + (Zeros(i) + b[..|b| - i])[..|b| - 1] == Zeros(i + 1) + b[..|b| - i - 1]
    ensures (Zeros(|b| - i) + Mirror(b)[..i])[1..] + [(Zeros(i) + b[..|b| - i])[|b| - 1]]
         == Zeros(|b| - i - 1) + Mirror(b)[..i + 1]
  {
    var moved := Zeros(i) + b[..|b| - i];
    var x, y := [false] + moved[..|b| - 1], Zeros(i + 1) + b[..|b| - i - 1];
    forall k | 0 <= k < |b| ensures x[k] == y[k] {
      if k > 0 {
        assert x[k] == moved[k - 1];
      }
    }
    var turned := Zeros(|b| - i) + Mirror(b)[..i];
    assert turned[1..] == Zeros(|b| - i - 1) + Mirror(b)[..i];
    assert moved[|b| - 1] == Mirror(b)[i];
  }

  method Reverse8(value: bv8) returns (reversed: bv8)
    ensures reversed == Reversed8(value)
    ensures Bits8(reversed) == LowBits8(value)
  {
    hide Bits8, Word8, Mirror, Zeros;
    reversed := 0;
    var v := value;
    ZeroBits8();
    for i := 0 to 8
      invariant Bits8(v) == Zeros(i) + Bits8(value)[..8 - i]
      invariant Bits8(reversed) == Zeros(8 - i) + LowBits8(value)[..i]
    {
      ReverseTurn(Bits8(value), i);
      AppendBit8(reversed, v);
      RightBits8(v);
      reversed := (reversed << 1) | (v & 1);
      v := v >> 1;
    }
    assert Zeros(0) + LowBits8(value)[..8] == LowBits8(value);
    WordOfBits8(reversed);
  }

  method Reverse16(value: bv16) returns (reversed: bv16)
    ensures reversed == Reversed16(value)
    ensures Bits16(reversed) == LowBits16(value)
  {
    hide Bits16, Word16, Mirror, Zeros;
    reversed := 0;
    var v := value;
    ZeroBits16();
    for i := 0 to 16
      invariant Bits16(v) == Zeros(i) + Bits16(value)[..16 - i]
      invariant Bits16(reversed) == Zeros(16 - i) + LowBits16(value)[..i]
    {
      ReverseTurn(Bits16(value), i);
      AppendBit16(reversed, v);
      RightBits16(v);
      reversed := (reversed << 1) | (v & 1);
      v := v >> 1;
    }
    assert Zeros(0) + LowBits16(value)[..16] == LowBits16(value);
    WordOfBits16(reversed);
  }

  // ----- the common loop

  function Mapped(order: bv8 -> bv8, m: seq<bv8>): (s: seq<bv8>)
    ensures |s| == |m|
    ensures forall i :: 0 <= i < |m| ==> s[i] == order(m[i])
  {
    seq(|m|, i requires 0 <= i < |m| => order(m[i]))
  }

  /** A byte added to the high half and clocked eight times. */
  method FeedByte(remainder: bv16, polynomial: bv16, byte: bv8) returns (r: bv16)
    ensures Bits16(r) == FeedBits(Bits16(remainder), Bits16(polynomial), Bits8(byte))
  {
    hide Bits8, Bits16, FeedBits;
    r := remainder ^ ((byte as bv16) << 8);
    ghost var start := Bits16(r);
    var bit := 8;
    while bit > 0
      invariant 0 <= bit <= 8
      invariant Bits16(r) == ShiftBy(start, Bits16(polynomial), 8 - bit)
    {
      StepBits16(r, polynomial);
      ShiftByAdds(start, Bits16(polynomial), 8 - bit, 1);
      ShiftOnce(Bits16(r), Bits16(polynomial));
      if r & 0x8000 != 0 {
        r := (r << 1) ^ polynomial;
      } else {
        r := r << 1;
      }
      bit := bit - 1;
    }
    HighByteBits(byte);
    XorBits16(remainder, (byte as bv16) << 8);
    FeedWord(Bits16(remainder), Bits16(polynomial), Bits8(byte));
  }

  method Crc16Common(message: seq<bv8>, nBytes: int, dataOrder: bv8 -> bv8, remainderOrder: bv16 -> bv16,
                     init: bv16, polynomial: bv16) returns (r: bv16)
    requires nBytes <= |message|
    ensures r == remainderOrder(Crc(init, polynomial, Mapped(dataOrder, message[..if nBytes < 0 then 0 else nBytes])))
  {
    hide Bits16, Bits8, Word16;
    ghost var all := Mapped(dataOrder, message[..if nBytes < 0 then 0 else nBytes]);
    var remainder := init;
    var byte := 0;
    while byte < nBytes
      invariant 0 <= byte && (nBytes >= 0 ==> byte <= nBytes) && (nBytes < 0 ==> byte == 0)
      invariant Bits16(remainder) == Register(init, polynomial, all[..byte])
    {
      var b := dataOrder(message[byte]);
      FeedOneMore(init, polynomial, all, byte);
      remainder := FeedByte(remainder, polynomial, b);
      byte := byte + 1;
    }
    assert all[..byte] == all;
    CrcIs(remainder, init, polynomial, all);
    r := remainderOrder(remainder);
  }

  lemma FeedOneMore(init: bv16, poly: bv16, m: seq<bv8>, k: nat)
    requires k < |m|
    ensures Register(init, poly, m[..k + 1])
         == FeedBits(Register(init, poly, m[..k]), Bits16(poly), Bits8(m[k]))
  {
    hide Bits16, Bits8, FeedBits;
    assert m[..k + 1][..k] == m[..k];
    FeedBitsAppend(Bits16(init), Bits16(poly), MessageBits(m[..k]), Bits8(m[k]));
  }

  // ----- the instances

  function Straight8(v: bv8): bv8 { v }
  function Straight16(v: bv16): bv16 { v }

  lemma MappedStraight(m: seq<bv8>)
    ensures Mapped(Straight8, m) == m
  {}

  method Ccitt(message: seq<bv8>) returns (r: bv16)
    ensures r == Crc(0xffff, CCITT, message)
  {
    MappedStraight(message);
    assert message[..|message|] == message;
    r := Crc16Common(message, |message|, Straight8, Straight16, 0xffff, 0x1021);
  }

  method Xmodem(message: seq<bv8>) returns (r: bv16)
    ensures r == Crc(0, CCITT, message)
  {
    MappedStraight(message);
    assert message[..|message|] == message;
    r := Crc16Common(message, |message|, Straight8, Straight16, 0x0000, 0x1021);
  }

  method Ccitt1d0f(message: seq<bv8>) returns (r: bv16)
    ensures r == Crc(0x1d0f, CCITT, message)
  {
    MappedStraight(message);
    assert message[..|message|] == message;
    r := Crc16Common(message, |message|, Straight8, Straight16, 0x1d0f, 0x1021);
  }

  method X25(message: seq<bv8>) returns (r: bv16)
    ensures r == !Reversed16(Crc(0xffff, CCITT, Mapped(Reversed8, message)))
  {
    hide Reversed8, Reversed16, Crc, Mapped;
    assert message[..|message|] == message;
    var swap := Crc16Common(message, |message|, Reversed8, Reversed16, 0xffff, 0x1021);
    r := !swap;
  }

  method Kermit(message: seq<bv8>) returns (r: bv16)
    ensures var low := Reversed16(Crc(0, CCITT, Mapped(Reversed8, message)));
            Hi(r) == Lo(low) && Lo(r) == Hi(low)
  {
    hide Reversed8, Reversed16, Crc, Mapped;
    assert message[..|message|] == message;
    var swap := Crc16Common(message, |message|, Reversed8, Reversed16, 0x0000, 0x1021);
    r := (swap << 8) | (swap >> 8);
    SwappedHalves(swap);
  }

  lemma SwappedHalves(x: bv16)
    ensures Hi((x << 8) | (x >> 8)) == Lo(x) && Lo((x << 8) | (x >> 8)) == Hi(x)
  {}

  method Ibm(message: seq<bv8>) returns (r: bv16)
    ensures r == Reversed16(Crc(0, 0x8005, Mapped(Reversed8, message)))
  {
    hide Reversed8, Reversed16, Crc, Mapped;
    assert message[..|message|] == message;
    r := Crc16Common(message, |message|, Reversed8, Reversed16, 0x0000, 0x8005);
  }
}

/** utility/digest_algorithm/crc.c: the bit-serial CRC-16. */
module CrcC {
  import opened CrcRegister
  import opened CrcWords
  import opened CrcSpec

  /** Bit i of a message is bit i % 8 of byte i / 8. */
  lemma {:induction false} MessageBit(m: seq<bv8>, i: nat)
    requires i < 8 * |m|
    ensures MessageBits(m)[i] == Bits8(m[i / 8])[i % 8]
    decreases |m|
  {
    hide Bits8;
    var last := |m| - 1;
    if i < 8 * last {
      MessageBit(m[..last], i);
    }
  }

  predicate Top(r: bv16) { r & 0x8000 != 0 }

  function StepIf(top: bool, r: bv16, poly: bv16): bv16 {
    if top then (r << 1) ^ poly else r << 1
  }

  lemma StepIfBits(top: bool, r: bv16, poly: bv16)
    ensures var left := Bits16(r)[1..] + [false];
            Bits16(StepIf(top, r, poly)) == if top then Xor(left, Bits16(poly)) else left
  {
    hide Bits16;
    LeftBits16(r);
    if top {
      XorBits16(r << 1, poly);
    }
  }

  lemma TopOfXor(shift: bv16, data: bv16)
    ensures Top(shift ^ data) == (Bits16(shift)[0] != Bits16(data)[0])
  {
    hide Bits16;
    TopBit16(shift ^ data);
    XorBits16(shift, data);
  }

  /** One turn on the shift register, when the data register shows `bit` at the top. */
  lemma SerialTurn(shift: bv16, data: bv16, poly: bv16, bit: bool)
    requires Bits16(data)[0] == bit
    ensures Bits16(StepIf(Top(shift ^ data), shift, poly)) == Feed(Bits16(shift), Bits16(poly), bit)
  {
    hide Bits16, Shift, Top, StepIf;
    var r := Bits16(shift);
    var r' := r[0 := r[0] != bit];
    TopOfXor(shift, data);
    StepIfBits(Top(shift ^ data), shift, poly);
    ShiftByCases(r', Bits16(poly));
    assert r'[1..] == r[1..];
  }

  lemma FeedNext(r: seq<bool>, p: seq<bool>, bits: seq<bool>, i: nat)
    requires |r| == |p| > 0 && i < |bits|
    ensures FeedBits(r, p, bits[..i + 1]) == Feed(FeedBits(r, p, bits[..i]), p, bits[i])
  {
    assert bits[..i + 1] == bits[..i] + [bits[i]];
    FeedBitsAppend(r, p, bits[..i], [bits[i]]);
  }

  /** The data register: what is left of the current byte, at the top. */
  ghost predicate Holds(data: bv16, byte: bv8, k: nat)
    requires k < 8
  {
    Bits16(data) == Bits8(byte)[k..] + Zeros(8 + k)
  }

  lemma HoldsByte(byte: bv8)
    ensures Holds((byte as bv16) << 8, byte, 0)
  {
    hide Bits8, Bits16;
    HighByteBits(byte);
  }

  lemma HoldsNext(data: bv16, byte: bv8, k: nat)
    requires k < 7 && Holds(data, byte, k)
    ensures Holds(data << 1, byte, k + 1)
  {
    hide Bits8, Bits16;
    LeftBits16(data);
  }

  lemma HoldsFirst(data: bv16, byte: bv8, k: nat)
    requires k < 8 && Holds(data, byte, k)
    ensures Bits16(data)[0] == Bits8(byte)[k]
  {
    hide Bits8, Bits16;
  }

  /** utils_crc16: `length` counts bits. */
  method UtilsCrc16(buf: seq<bv8>, length: nat) returns (shift: bv16)
    requires length <= 8 * |buf| && length < 0x8000_0000
    ensures Bits16(shift) == FeedBits(Bits16(0xffff), Bits16(CCITT), MessageBits(buf)[..length])
  {
    hide Bits8, Bits16, MessageBits, Top, StepIf, Holds;
    shift := 0xffff;
    var data: bv16 := 0;
    for i := 0 to length
      invariant Bits16(shift) == FeedBits(Bits16(0xffff), Bits16(CCITT), MessageBits(buf)[..i])
      invariant i % 8 != 0 ==> Holds(data, buf[i / 8], i % 8)
    {
      if i % 8 == 0 {
        data := (buf[i / 8] as bv16) << 8;
        HoldsByte(buf[i / 8]);
      }
      FeedNext(Bits16(0xffff), Bits16(CCITT), MessageBits(buf), i);
      shift, data := SerialStep(shift, data, buf, i);
    }
  }

  /** One turn: the register takes message bit i and the data register moves on. */
  method SerialStep(shift: bv16, data: bv16, buf: seq<bv8>, i: nat) returns (shift': bv16, data': bv16)
    requires i < 8 * |buf| && Holds(data, buf[i / 8], i % 8)
    ensures Bits16(shift') == Feed(Bits16(shift), Bits16(CCITT), MessageBits(buf)[i])
    ensures (i + 1) % 8 != 0 ==> (i + 1) / 8 == i / 8 && Holds(data', buf[i / 8], (i + 1) % 8)
  {
    hide Bits8, Bits16, MessageBits, Feed, Zeros, Top, StepIf, Holds;
    ghost var bit := MessageBits(buf)[i];
    MessageBit(buf, i);
    HoldsFirst(data, buf[i / 8], i % 8);
    SerialTurn(shift, data, CCITT, bit);
    if i % 8 < 7 {
      HoldsNext(data, buf[i / 8], i % 8);
    }
    shift' := Clock(shift, data);
    data' := data << 1;
  }

  method Clock(shift: bv16, data: bv16) returns (shift': bv16)
    ensures shift' == StepIf(Top(shift ^ data), shift, CCITT)
  {
    var val := shift ^ data;
    shift' := shift << 1;
    if val & 0x8000 != 0 {
      shift' := shift' ^ 0x1021;
    }
  }

  /** utils_crc16 on whole bytes gives crc16ccitt. */
  method UtilsCrc16OfBytes(buf: seq<bv8>) returns (crc: bv16)
    requires 8 * |buf| < 0x8000_0000
    ensures crc == Crc(0xffff, CCITT, buf)
  {
    hide Bits16, FeedBits, MessageBits, Crc;
    crc := UtilsCrc16(buf, 8 * |buf|);
    SerialIsBytewise(crc, buf);
  }

  /** On whole bytes the bit-serial register is the byte-wise CRC of crc16.c. */
  lemma SerialIsBytewise(shift: bv16, buf: seq<bv8>)
    requires Bits16(shift) == FeedBits(Bits16(0xffff), Bits16(CCITT), MessageBits(buf)[..8 * |buf|])
    ensures shift == Crc(0xffff, CCITT, buf)
  {
    hide Bits16, FeedBits, MessageBits, Crc;
    assert MessageBits(buf)[..8 * |buf|] == MessageBits(buf);
    CrcIs(shift, 0xffff, CCITT, buf);
  }
}

/** utility/digest_algorithm/CheckSumUtils.c: the CRC contexts. */
module CheckSumUtils {
  import opened Crc16C
  import opened Chunks
  import opened CrcRegister
  import opened CrcWords
  import opened CrcSpec

  // ----- UpdateCRC16: long division, in 32-bit registers

  function Low16(x: bv32): bv16 { (x & 0xffff) as bv16 }

  /** The marked byte after k shifts: the marker starts at bit 8 and stops the loop at bit 16. */
  function Marked(byte: bv8, k: nat): bv32
    requires k <= 8
  {
    var x := (byte as bv32) | 0x100;
    match k
    case 0 => x case 1 => x << 1 case 2 => x << 2 case 3 => x << 3 case 4 => x << 4
    case 5 => x << 5 case 6 => x << 6 case 7 => x << 7 case _ => x << 8
  }

  lemma MarkedMoves(byte: bv8, k: nat)
    requires k < 8
    ensures Marked(byte, k) << 1 == Marked(byte, k + 1)
  {}

  /** Bit 8 shows the message bits in order. */
  lemma MarkedShows(byte: bv8, k: nat)
    requires k < 8
    ensures Marked(byte, k + 1) & 0x100 != 0 <==> Hit8(byte, Mask8(k))
  {}

  /** The marker reaches bit 16 at the eighth shift and not before. */
  lemma MarkedStops(byte: bv8, k: nat)
    requires k <= 8
    ensures Marked(byte, k) & 0x1_0000 != 0 <==> k == 8
  {}

  /** One turn, in the low sixteen bits. */
  function Turn(crc: bv32, bit: bool): bv32 {
    Reduced(Shifted(crc, bit))
  }

  function Reduced(x: bv32): bv32 {
    if x & 0x1_0000 != 0 then x ^ 0x1021 else x
  }

  function Shifted(crc: bv32, bit: bool): bv32 {
    if bit then (crc << 1) + 1 else crc << 1
  }

  lemma TurnLow(crc: bv32, bit: bool)
    ensures Low16(Turn(crc, bit)) == Plus(Step16(Low16(crc), CCITT), Unit16(bit))
  {
    hide Low16, Shifted, Unit16, Reduced, Step16, Plus, Over, TopSet;
    ShiftedIs(crc, bit);
    ReducedLow(Shifted(crc, bit));
    StepIs(Low16(crc));
    Swapped(Low16(crc) << 1, CCITT, Unit16(bit));
  }

  predicate Over(x: bv32) { x & 0x1_0000 != 0 }

  predicate TopSet(r: bv16) { r & 0x8000 != 0 }

  lemma ShiftedIs(crc: bv32, bit: bool)
    ensures Low16(Shifted(crc, bit)) == Plus(Low16(crc) << 1, Unit16(bit))
    ensures Over(Shifted(crc, bit)) <==> TopSet(Low16(crc))
  {}

  lemma ReducedLow(x: bv32)
    ensures Low16(Reduced(x)) == if Over(x) then Plus(Low16(x), CCITT) else Low16(x)
  {
    hide Low16, Plus;
    LowOfXor(x, 0x1021);
    LowConstant();
  }

  lemma LowOfXor(x: bv32, y: bv32)
    ensures Low16(x ^ y) == Plus(Low16(x), Low16(y))
  {}

  lemma LowConstant()
    ensures Low16(0x1021) == CCITT
  {}

  lemma StepIs(r: bv16)
    ensures Step16(r, CCITT) == if TopSet(r) then Plus(r << 1, CCITT) else r << 1
  {}

  lemma Swapped(x: bv16, y: bv16, z: bv16)
    ensures Plus(Plus(x, z), y) == Plus(Plus(x, y), z)
  {}

  function Unit16(bit: bool): bv16 { if bit then 1 else 0 }

  function Plus(a: bv16, b: bv16): bv16 { a ^ b }

  lemma PlusBits(a: bv16, b: bv16)
    ensures Bits16(Plus(a, b)) == Xor(Bits16(a), Bits16(b))
  {
    XorBits16(a, b);
  }

  lemma DivideAsXor(r: seq<bool>, p: seq<bool>, bit: bool)
    requires |r| == |p| > 0
    ensures Divide(r, p, bit) == Xor(Shift(r, p), Zeros(|p| - 1) + [bit])
  {
    hide Shift;
  }

  lemma TurnDivides(crc: bv32, bit: bool)
    ensures Bits16(Low16(Turn(crc, bit))) == Divide(Bits16(Low16(crc)), Bits16(CCITT), bit)
  {
    hide Bits16, Step16, Turn, Low16, Shift, Divide, Plus, Unit16;
    TurnLow(crc, bit);
    StepBits16(Low16(crc), CCITT);
    PlusBits(Step16(Low16(crc), CCITT), Unit16(bit));
    LowUnit(bit);
    DivideAsXor(Bits16(Low16(crc)), Bits16(CCITT), bit);
  }

  lemma LowUnit(bit: bool)
    ensures Bits16(Unit16(bit)) == Zeros(15) + [bit]
  {
    hide At16;
    var w := Unit16(bit);
    forall i | 0 <= i < 16 ensures Bits16(w)[i] == (Zeros(15) + [bit])[i] {
      LowUnitAt(bit, i);
    }
  }

  lemma LowUnitAt(bit: bool, i: nat)
    requires i < 16
    ensures At16(Unit16(bit), i) == (i == 15 && bit)
  {}

  lemma DivideNext(r: seq<bool>, p: seq<bool>, bits: seq<bool>, k: nat)
    requires |r| == |p| > 0 && k < |bits|
    ensures DivideBits(r, p, bits[..k + 1]) == Divide(DivideBits(r, p, bits[..k]), p, bits[k])
  {
    assert bits[..k + 1] == bits[..k] + [bits[k]];
    DivideBitsAppend(r, p, bits[..k], [bits[k]]);
  }

  lemma Widened(x: bv16)
    ensures Low16(x as bv32) == x
  {}

  method UpdateCrc16(crcIn: bv16, byte: bv8) returns (r: bv16)
    ensures Bits16(r) == DivideBits(Bits16(crcIn), Bits16(CCITT), Bits8(byte))
  {
    hide Bits8, Bits16, Divide, Marked, Low16, Shifted, Reduced, Hit8, Mask8;
    var crc := crcIn as bv32;
    var in_ := (byte as bv32) | 0x100;
    Widened(crcIn);
    assert in_ == Marked(byte, 0) by { MarkedStart(byte); }
    ghost var k := 0;
    var more := true;
    while more
      invariant 0 <= k <= 8 && (more <==> k < 8)
      invariant in_ == Marked(byte, k)
      invariant Bits16(Low16(crc)) == DivideBits(Bits16(crcIn), Bits16(CCITT), Bits8(byte)[..k])
      decreases 8 - k
    {
      DivideNext(Bits16(crcIn), Bits16(CCITT), Bits8(byte), k);
      MarkedMoves(byte, k);
      MarkedShows(byte, k);
      BitOfByte(byte, k);
      MarkedStops(byte, k + 1);
      TurnDivides(crc, Bits8(byte)[k]);
      in_ := in_ << 1;
      crc := ShiftIn(crc, in_);
      crc := Reduce(crc);
      k := k + 1;
      more := in_ & 0x1_0000 == 0;
    }
    assert Bits8(byte)[..8] == Bits8(byte);
    LowIs(crc);
    r := (crc & 0xffff) as bv16;
  }

  lemma MarkedStart(byte: bv8)
    ensures Marked(byte, 0) == (byte as bv32) | 0x100
  {}

  lemma BitOfByte(byte: bv8, k: nat)
    requires k < 8
    ensures Bits8(byte)[k] == Hit8(byte, Mask8(k))
  {}

  lemma LowIs(crc: bv32)
    ensures Low16(crc) == (crc & 0xffff) as bv16
  {}

  method ShiftIn(crcIn: bv32, in_: bv32) returns (crc: bv32)
    ensures crc == Shifted(crcIn, in_ & 0x100 != 0)
  {
    crc := crcIn << 1;
    if in_ & 0x100 != 0 {
      crc := crc + 1;
    }
  }

  method Reduce(x: bv32) returns (crc: bv32)
    ensures crc == Reduced(x)
  {
    crc := x;
    if crc & 0x1_0000 != 0 {
      crc := crc ^ 0x1021;
    }
  }

  /** Long division of the message so far. */
  function Quotientless(m: seq<bv8>): (s: seq<bool>)
    ensures |s| == 16
  {
    DivideBits(Bits16(0), Bits16(CCITT), MessageBits(m))
  }

  /** Two zero bytes complete the division, which is the direct CRC. */
  lemma DivisionIsCrc(r: bv16, m: seq<bv8>)
    requires Bits16(r) == Quotientless(m + [0, 0])
    ensures r == Crc(0, CCITT, m)
  {
    hide Bits16, Bits8, DivideBits, FeedBits, ShiftBy, Word16;
    MessageBitsAppend(m, [0, 0]);
    TwoBytes(0, 0);
    ZeroBits8();
    assert Zeros(8) + Zeros(8) == Zeros(16);
    RemainderIsDirect(Bits16(0), Bits16(CCITT), MessageBits(m));
    ZeroBits16();
    ShiftByOfZero(Bits16(CCITT), 16);
    CrcIs(r, 0, CCITT, m);
  }

  class Crc16Context {
    var crc: bv16
    ghost var msg: seq<bv8>

    ghost predicate Valid()
      reads this
    {
      Bits16(crc) == Quotientless(msg)
    }

    constructor ()
      ensures Valid() && msg == []
    {
      crc := 0;
      msg := [];
    }

    method Step(byte: bv8)
      requires Valid()
      modifies this
      ensures Valid() && msg == old(msg) + [byte]
    {
      hide Bits16, Bits8, DivideBits;
      assert (msg + [byte])[..|msg|] == msg;
      DivideBitsAppend(Bits16(0), Bits16(CCITT), MessageBits(msg), Bits8(byte));
      crc := UpdateCrc16(crc, byte);
      msg := msg + [byte];
    }

    method Update(src: seq<bv8>)
      requires Valid()
      modifies this
      ensures Valid() && msg == old(msg) + src
    {
      hide Valid;
      for i := 0 to |src|
        invariant Valid() && msg == old(msg) + src[..i]
      {
        assert src[..i + 1] == src[..i] + [src[i]];
        Step(src[i]);
      }
      assert src[..|src|] == src;
    }

    /** CRC16_Final: the CRC of everything absorbed. */
    method Final() returns (result: bv16)
      requires Valid()
      modifies this
      ensures result == Crc(0, CCITT, old(msg))
    {
      hide Bits16, Quotientless, Crc;
      ghost var m := msg;
      Step(0);
      Step(0);
      assert (m + [0]) + [0] == m + [0, 0];
      DivisionIsCrc(crc, m);
      result := crc;
    }
  }

  /** For every byte string and every way to cut it, dividing the augmented message gives
      the direct CRC that crc16ccitt_xmodem computes. */
  method Crc16OfChunks(chunks: seq<seq<bv8>>) returns (result: bv16)
    ensures result == Crc(0, CCITT, Flatten(chunks))
  {
    hide Crc;
    var ctx := new Crc16Context();
    for i := 0 to |chunks|
      invariant ctx.Valid() && fresh(ctx) && ctx.msg == Flatten(chunks[..i])
    {
      assert chunks[..i + 1][..i] == chunks[..i];
      ctx.Update(chunks[i]);
    }
    assert chunks[..|chunks|] == chunks;
    result := ctx.Final();
  }

  /** Divided from the seed 0xffff, the message gives crc16ccitt_1d0f. */
  lemma DivisionFromFfff(m: seq<bv8>)
    ensures Word16(Remainder(Bits16(0xffff), Bits16(CCITT), MessageBits(m))) == Crc(0x1d0f, CCITT, m)
  {
    hide Bits16, FeedBits, MessageBits, Word16, ShiftBy, Remainder;
    RemainderIsDirect(Bits16(0xffff), Bits16(CCITT), MessageBits(m));
    SeedFfffAhead();
  }

  // ----- CRC-8, least significant bit first

  /** The message as a LSB-first register takes it. */
  function LowMessageBits(m: seq<bv8>): (s: seq<bool>)
    ensures |s| == 8 * |m|
  {
    if m == [] then [] else LowMessageBits(m[..|m| - 1]) + LowBits8(m[|m| - 1])
  }

  /** A message LSB first is the message of mirrored bytes MSB first. */
  lemma {:induction false} LowMessage(m: seq<bv8>)
    ensures LowMessageBits(m) == MessageBits(Mapped(Reversed8, m))
    decreases |m|
  {
    hide Bits8, Word8, LowBits8, Reversed8;
    if m != [] {
      var last := |m| - 1;
      assert Mapped(Reversed8, m)[..last] == Mapped(Reversed8, m[..last]);
      LowMessage(m[..last]);
      ReversedBits8(m[last]);
    }
  }

  lemma ReversedBits8(b: bv8)
    ensures Bits8(Reversed8(b)) == LowBits8(b)
  {
    hide Bits8, Word8;
    BitsOfWord8(LowBits8(b));
  }

  /** The bit-reversing instances of crc16common are LSB-first registers, for every seed,
      polynomial and message. */
  lemma ReflectedIsLowFirst(init: bv16, poly: bv16, m: seq<bv8>)
    ensures LowBits16(Reversed16(Crc(init, poly, Mapped(Reversed8, m))))
         == FeedBits(Bits16(init), Bits16(poly), LowMessageBits(m))
  {
    hide Bits16, FeedBits, Word16, Crc, MessageBits, LowMessageBits, Mapped;
    var c := Crc(init, poly, Mapped(Reversed8, m));
    LowMessage(m);
    BitsOfCrc(init, poly, Mapped(Reversed8, m));
    BitsOfWord16(LowBits16(c));
  }

  /** 0x8C is 0x31 mirrored: x^8 + x^5 + x^4 + 1. */
  lemma MirroredPoly8()
    ensures LowBits8(0x8C) == Bits8(0x31)
  {
    forall i | 0 <= i < 8 ensures LowBits8(0x8C)[i] == Bits8(0x31)[i] {
      assert At8(0x8C, 7 - i) == At8(0x31, i);
    }
  }

  method UpdateCrc8(crcIn: bv8, byte: bv8) returns (crc: bv8)
    ensures LowBits8(crc) == FeedBits(LowBits8(crcIn), Bits8(0x31), LowBits8(byte))
  {
    hide Bits8, Bits16, FeedBits;
    crc := crcIn ^ byte;
    ghost var start := LowBits8(crc);
    MirroredPoly8();
    for i := 0 to 8
      invariant LowBits8(crc) == ShiftBy(start, Bits8(0x31), i)
    {
      RightStepBits8(crc, 0x8C);
      ShiftByAdds(start, Bits8(0x31), i, 1);
      ShiftOnce(LowBits8(crc), Bits8(0x31));
      if crc & 0x01 != 0 {
        crc := (crc >> 1) ^ 0x8C;
      } else {
        crc := crc >> 1;
      }
    }
    XorBits8(crcIn, byte);
    MirrorXor(Bits8(crcIn), Bits8(byte));
    FeedWord(LowBits8(crcIn), Bits8(0x31), LowBits8(byte));
    assert Pad(LowBits8(byte), 8) == LowBits8(byte);
  }

  class Crc8Context {
    var crc: bv8
    ghost var msg: seq<bv8>

    /** The register, read LSB first, is the MSB-first CRC-8 with polynomial 0x31 of the
        mirrored bytes. */
    ghost predicate Valid()
      reads this
    {
      LowBits8(crc) == FeedBits(Zeros(8), Bits8(0x31), LowMessageBits(msg))
    }

    constructor ()
      ensures Valid() && msg == []
    {
      crc := 0;
      msg := [];
      new;
      ZeroBits8();
    }

    method Step(byte: bv8)
      requires Valid()
      modifies this
      ensures Valid() && msg == old(msg) + [byte]
    {
      hide Bits8, FeedBits;
      assert (msg + [byte])[..|msg|] == msg;
      FeedBitsAppend(Zeros(8), Bits8(0x31), LowMessageBits(msg), LowBits8(byte));
      crc := UpdateCrc8(crc, byte);
      msg := msg + [byte];
    }

    method Update(src: seq<bv8>)
      requires Valid()
      modifies this
      ensures Valid() && msg == old(msg) + src
    {
      hide Valid;
      for i := 0 to |src|
        invariant Valid() && msg == old(msg) + src[..i]
      {
        assert src[..i + 1] == src[..i] + [src[i]];
        Step(src[i]);
      }
      assert src[..|src|] == src;
    }

    /** CRC8_Final: the mirror image of the MSB-first CRC-8 of the mirrored bytes. */
    method Final() returns (result: bv8)
      requires Valid()
      ensures result == Reversed8(HighCrc8(Mapped(Reversed8, msg)))
    {
      hide Bits8, FeedBits, HighCrc8, Mapped, Reversed8;
      LowCrc8IsMirrored(crc, msg);
      result := crc;
    }
  }

  /** The CRC-8 with polynomial 0x31, most significant bit first. */
  function HighCrc8(m: seq<bv8>): bv8 {
    Word8(FeedBits(Zeros(8), Bits8(0x31), MessageBits(m)))
  }

  lemma LowCrc8IsMirrored(crc: bv8, m: seq<bv8>)
    requires LowBits8(crc) == FeedBits(Zeros(8), Bits8(0x31), LowMessageBits(m))
    ensures crc == Reversed8(HighCrc8(Mapped(Reversed8, m)))
  {
    hide Bits8, FeedBits, Word8, MessageBits, LowMessageBits, Mapped;
    var h := HighCrc8(Mapped(Reversed8, m));
    LowMessage(m);
    BitsOfWord8(LowBits8(crc));
    assert Bits8(h) == LowBits8(crc);
    ReversedBits8(h);
    assert Bits8(Reversed8(h)) == Mirror(Mirror(Bits8(crc)));
    SameBits8(Reversed8(h), crc);
  }

  /** For every byte string and every way to cut it. */
  method Crc8OfChunks(chunks: seq<seq<bv8>>) returns (result: bv8)
    ensures result == Reversed8(HighCrc8(Mapped(Reversed8, Flatten(chunks))))
  {
    hide HighCrc8, Reversed8, Mapped;
    var ctx := new Crc8Context();
    for i := 0 to |chunks|
      invariant ctx.Valid() && fresh(ctx) && ctx.msg == Flatten(chunks[..i])
    {
      assert chunks[..i + 1][..i] == chunks[..i];
      ctx.Update(chunks[i]);
    }
    assert chunks[..|chunks|] == chunks;
    result := ctx.Final();
  }
}

/** The frame check sequence of RFC 1662, Appendix C, and crc16x25 against it. */
module Rfc1662 {
  import opened CrcRegister
  import opened CrcWords
  import opened CrcSpec
  import opened Crc16C
  import CheckSumUtils

  /** n clocks of the LSB-first register with polynomial 0x8408. */
  function Clocks(x: bv16, n: nat): bv16
    decreases n
  {
    if n == 0 then x else Clocks(RightStep16(x, 0x8408), n - 1)
  }

  /** fcstab[x]. */
  function Table(x: bv8): bv16 {
    Clocks(x as bv16, 8)
  }

  /** One byte, as pppfcs16 takes it. */
  function FcsByte(fcs: bv16, b: bv8): bv16 {
    WithTable(fcs, Table(Lo(Added(fcs, b))))
  }

  function Added(fcs: bv16, b: bv8): bv16 { fcs ^ (b as bv16) }

  function WithTable(fcs: bv16, t: bv16): bv16 { (fcs >> 8) ^ t }

  /** pppfcs16. */
  function Fcs(fcs: bv16, m: seq<bv8>): bv16 {
    if m == [] then fcs else FcsByte(Fcs(fcs, m[..|m| - 1]), m[|m| - 1])
  }

  lemma MirroredPoly16()
    ensures LowBits16(0x8408) == Bits16(CCITT)
  {
    forall i | 0 <= i < 16 ensures LowBits16(0x8408)[i] == Bits16(CCITT)[i] {
      assert At16(0x8408, 15 - i) == At16(0x1021, i);
    }
  }

  lemma {:induction false} ClocksShift(x: bv16, n: nat)
    ensures LowBits16(Clocks(x, n)) == ShiftBy(LowBits16(x), Bits16(CCITT), n)
    decreases n
  {
    hide Bits16, RightStep16, LowBits16;
    if n > 0 {
      MirroredPoly16();
      RightStepBits16(x, 0x8408);
      ClocksShift(RightStep16(x, 0x8408), n - 1);
    }
  }

  /** A word LSB first: its low byte, then its high byte. */
  lemma LowBitsOfHalves(x: bv16)
    ensures LowBits16(x) == LowBits8(Lo(x)) + LowBits8(Hi(x))
  {
    hide Bits8, Bits16, Hi, Lo;
    BitsOfHalves(x);
  }

  lemma ZeroLowBits8()
    ensures LowBits8(0) == Zeros(8)
  {
    hide Bits8;
    ZeroBits8();
  }

  lemma ByteHalves(b: bv8, x: bv16)
    ensures Lo(b as bv16) == b && Hi(b as bv16) == 0
    ensures Lo(x >> 8) == Hi(x) && Hi(x >> 8) == 0
    ensures Hi(x ^ (b as bv16)) == Hi(x)
  {}

  function High(x: bv16): bv16 { x >> 8 }

  /** Eight clocks: the low byte goes through the table, the high byte only moves. */
  lemma EightClocks(x: bv16)
    ensures ShiftBy(LowBits16(x), Bits16(CCITT), 8) == Xor(LowBits16(High(x)), LowBits16(Table(Lo(x))))
  {
    hide Bits8, Bits16, Hi, Lo, ShiftBy, Table, LowBits8, LowBits16;
    var p := Bits16(CCITT);
    var low, high := LowBits8(Lo(x)), LowBits8(Hi(x));
    ByteHalves(0, x);
    ZeroLowBits8();
    LowBitsOfHalves(x);
    LowBitsOfHalves(x >> 8);
    assert LowBits16(x) == Xor(Zeros(8) + high, low + Zeros(8));
    ShiftByIsLinear(Zeros(8) + high, low + Zeros(8), p, 8);
    ShiftByMoves(8, high, p);
    TableBits(Lo(x));
  }

  /** Adding a byte at the low end is adding its bits at the front. */
  lemma AddByte(fcs: bv16, b: bv8)
    ensures LowBits16(Added(fcs, b)) == Xor(LowBits16(fcs), Pad(LowBits8(b), 16))
  {
    hide Bits8, Bits16, Hi, Lo, LowBits8;
    ByteHalves(b, fcs);
    ZeroLowBits8();
    LowBitsOfHalves(b as bv16);
    XorBits16(fcs, b as bv16);
    MirrorXor(Bits16(fcs), Bits16(b as bv16));
  }

  /** The table step is eight clocks of the register. */
  lemma FcsByteFeeds(fcs: bv16, b: bv8)
    ensures LowBits16(FcsByte(fcs, b)) == FeedBits(LowBits16(fcs), Bits16(CCITT), LowBits8(b))
  {
    hide Bits16, Lo, FeedBits, ShiftBy, Table, LowBits8, LowBits16, Added, WithTable, High;
    var x := Added(fcs, b);
    AddByte(fcs, b);
    EightClocks(x);
    SameHigh(fcs, b);
    FeedWord(LowBits16(fcs), Bits16(CCITT), LowBits8(b));
    FcsSplit(fcs, Table(Lo(x)));
  }

  lemma SameHigh(fcs: bv16, b: bv8)
    ensures High(Added(fcs, b)) == High(fcs)
  {}

  lemma TableBits(x: bv8)
    ensures LowBits16(Table(x)) == ShiftBy(LowBits8(x) + Zeros(8), Bits16(CCITT), 8)
  {
    hide Bits8, Bits16, Hi, Lo, ShiftBy, Clocks;
    ByteHalves(x, 0);
    ZeroLowBits8();
    LowBitsOfHalves(x as bv16);
    ClocksShift(x as bv16, 8);
  }

  lemma FcsSplit(fcs: bv16, t: bv16)
    ensures LowBits16(WithTable(fcs, t)) == Xor(LowBits16(High(fcs)), LowBits16(t))
  {
    hide Bits16;
    XorBits16(fcs >> 8, t);
    MirrorXor(Bits16(fcs >> 8), Bits16(t));
  }

  /** The table-driven FCS is the LSB-first register. */
  lemma {:induction false} FcsFeeds(fcs: bv16, m: seq<bv8>)
    ensures LowBits16(Fcs(fcs, m)) == FeedBits(LowBits16(fcs), Bits16(CCITT), CheckSumUtils.LowMessageBits(m))
    decreases |m|
  {
    hide Bits16, FeedBits, FcsByte, LowBits8, LowBits16;
    if m == [] {
      NothingFed(LowBits16(fcs), Bits16(CCITT));
    } else {
      var last := |m| - 1;
      FcsFeeds(fcs, m[..last]);
      FcsByteFeeds(Fcs(fcs, m[..last]), m[last]);
      FeedBitsAppend(LowBits16(fcs), Bits16(CCITT), CheckSumUtils.LowMessageBits(m[..last]), LowBits8(m[last]));
    }
  }

  lemma NothingFed(r: seq<bool>, p: seq<bool>)
    requires |r| == |p| > 0
    ensures FeedBits(r, p, []) == r
  {}

  lemma OnesMirrored()
    ensures LowBits16(0xffff) == Bits16(0xffff)
    ensures Bits16(0xffff) == Complement(Zeros(16))
  {
    forall i | 0 <= i < 16 ensures At16(0xffff, i) {
    }
  }

  /** crc16x25 is the frame check sequence of RFC 1662, for every message. */
  lemma X25IsFcs(m: seq<bv8>)
    ensures Reversed16(Crc(0xffff, CCITT, Mapped(Reversed8, m))) == Fcs(0xffff, m)
  {
    hide Bits16, FeedBits, Crc, Fcs, CheckSumUtils.LowMessageBits, Mapped, Reversed8, Reversed16, LowBits16;
    FcsFeeds(0xffff, m);
    OnesMirrored();
    CheckSumUtils.ReflectedIsLowFirst(0xffff, CCITT, m);
    SameLowBits(Reversed16(Crc(0xffff, CCITT, Mapped(Reversed8, m))), Fcs(0xffff, m));
  }

  lemma ComplementBits(x: bv16)
    ensures LowBits16(!x) == Complement(LowBits16(x))
  {
    hide Bits16, LowBits16, Sum16;
    NotAsXor(x);
    LowXor16(x, 0xffff);
    OnesMirrored();
  }

  lemma NotAsXor(x: bv16)
    ensures !x == Sum16(x, 0xffff)
  {}

  lemma GoodResidue()
    ensures LowBits16(0xf0b8) == Bits16(0x1d0f)
  {
    forall i | 0 <= i < 16 ensures LowBits16(0xf0b8)[i] == Bits16(0x1d0f)[i] {
      assert At16(0xf0b8, 15 - i) == At16(0x1d0f, i);
    }
  }

  /** The receiver's check: message and complemented FCS, low byte first, leave 0xf0b8. */
  lemma GoodFcs(m: seq<bv8>)
    ensures var c := !Fcs(0xffff, m); Fcs(0xffff, m + [Lo(c), Hi(c)]) == 0xf0b8
  {
    hide Bits16, FeedBits, Fcs, Lo, Hi, LowBits8, CheckSumUtils.LowMessageBits;
    var f := Fcs(0xffff, m);
    var c := !f;
    var p := Bits16(CCITT);
    FcsFeeds(0xffff, m);
    FcsFeeds(0xffff, m + [Lo(c), Hi(c)]);
    LowMessageOfTwo(m, Lo(c), Hi(c));
    LowBitsOfHalves(c);
    FeedBitsAppend(LowBits16(0xffff), p, CheckSumUtils.LowMessageBits(m), LowBits16(c));
    ComplementBits(f);
    FeedComplement(LowBits16(f), p);
    OnesMirrored();
    SeedFfffAhead();
    GoodResidue();
    SameLowBits(Fcs(0xffff, m + [Lo(c), Hi(c)]), 0xf0b8);
  }

  lemma LowMessageOfTwo(m: seq<bv8>, x: bv8, y: bv8)
    ensures CheckSumUtils.LowMessageBits(m + [x, y])
         == CheckSumUtils.LowMessageBits(m) + (LowBits8(x) + LowBits8(y))
  {
    hide LowBits8;
    assert (m + [x, y])[..|m| + 1] == m + [x] && (m + [x])[..|m|] == m;
  }

  lemma SameLowBits(a: bv16, b: bv16)
    requires LowBits16(a) == LowBits16(b)
    ensures a == b
  {
    hide Bits16;
    assert Bits16(a) == Mirror(LowBits16(a)) && Bits16(b) == Mirror(LowBits16(b));
    SameBits16(a, b);
  }
}
