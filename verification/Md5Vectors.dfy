/**
  What the auxiliary functions and the initial buffer of md5.c are, bit by bit and byte by
  byte, and the digest of "abc" that section A.5 of RFC 1321 gives.
 */
module Md5Vectors {
  import opened BlockStream
  import opened Md5Spec
  import opened WordsInMemory

  /** F takes y's bit where x's is set and z's elsewhere. */
  lemma FChooses(x: bv32, y: bv32, z: bv32)
    ensures F(x, y, z) & x == y & x && F(x, y, z) & !x == z & !x
  {}

  /** G takes x's bit where z's is set and y's elsewhere. */
  lemma GChooses(x: bv32, y: bv32, z: bv32)
    ensures G(x, y, z) & z == x & z && G(x, y, z) & !z == y & !z
  {}

  /** H is the parity: where two of its arguments agree it is the third. */
  lemma HIsParity(x: bv32, y: bv32, z: bv32)
    ensures H(x, y, z) & !(x ^ y) == z & !(x ^ y)
    ensures H(x, y, z) & (x ^ y) == !z & (x ^ y)
  {}

  /** I is the complement of y where x is set or z is not, and y elsewhere. */
  lemma IComplements(x: bv32, y: bv32, z: bv32)
    ensures I(x, y, z) & (x | !z) == !y & (x | !z)
    ensures I(x, y, z) & !(x | !z) == y & !(x | !z)
  {}

  /** The initial buffer, as the RFC lists its bytes. */
  lemma InitialBytes()
    ensures RegBytes(IV) == [0x01, 0x23, 0x45, 0x67] + [0x89, 0xab, 0xcd, 0xef] +
                            [0xfe, 0xdc, 0xba, 0x98] + [0x76, 0x54, 0x32, 0x10]
  {
    hide WordBytes;
    InitialWords();
    BytesOf4(IV);
  }

  lemma InitialWords()
    ensures WordBytes(0x6745_2301) == [0x01, 0x23, 0x45, 0x67]
    ensures WordBytes(0xefcd_ab89) == [0x89, 0xab, 0xcd, 0xef]
    ensures WordBytes(0x98ba_dcfe) == [0xfe, 0xdc, 0xba, 0x98]
    ensures WordBytes(0x1032_5476) == [0x76, 0x54, 0x32, 0x10]
  {}

  /** The bytes of the buffer are those of its words in turn. */
  lemma BytesOf4(h: Regs4)
    ensures RegBytes(h) == WordBytes(h.a) + WordBytes(h.b) + WordBytes(h.c) + WordBytes(h.d)
  {
    hide WordBytes;
    hide Bytes;
    BytesStep([], h.a);
    BytesStep([h.a], h.b);
    BytesStep([h.a, h.b], h.c);
    BytesStep([h.a, h.b, h.c], h.d);
    assert [h.a] + [h.b] == [h.a, h.b] && [h.a, h.b] + [h.c] == [h.a, h.b, h.c];
    assert [] + [h.a] == [h.a] && [h.a, h.b, h.c] + [h.d] == [h.a, h.b, h.c, h.d];
  }

  lemma BytesStep(ws: seq<bv32>, w: bv32)
    ensures Bytes([]) == [] && Bytes(ws + [w]) == Bytes(ws) + WordBytes(w)
  {
    hide WordBytes;
    assert (ws + [w])[..|ws|] == ws;
  }

  lemma NoSteps(h: Regs4, x: seq<bv32>)
    requires |x| == 16
    ensures Steps(h, x, 0) == h
  {}

  /** One operation on known registers. */
  lemma StepAt(h: Regs4, words: seq<bv32>, i: nat, f: bv32, x: bv32, s: nat, t: bv32,
               a: bv32, b: bv32, c: bv32, d: bv32)
    returns (b': bv32)
    requires |words| == 16 && i < 64 && Steps(h, words, i) == Regs4(a, b, c, d)
    requires Aux(i, b, c, d) == f && words[WordIndex(i)] == x && Shift(i) == s && T(i) == t
    ensures b' == b + Rotl(a + f + x + t, s)
    ensures Steps(h, words, i + 1) == Regs4(d, b', b, c)
  {
    hide Aux, T, Shift, WordIndex, Rotl;
    b' := Op(f, a, b, x, s, t);
  }

  /** The length field of a short message. */
  lemma FieldOf(len: nat, lo: nat, hi: nat)
    requires lo < 256 && hi < 256 && 8 * len == lo + 256 * hi
    ensures LengthField(len) == [lo as bv8, hi as bv8] + Zeros(6)
  {
    hide LengthField, LittleEndian, Zeros;
    ShortLength(len);
    ShortLittleEndian(lo, hi);
  }

  lemma ShortLength(len: nat)
    requires 8 * len < 0x1_0000
    ensures LengthField(len) == LittleEndian(8 * len, 8)
  {
    hide LittleEndian;
  }

  lemma ShortLittleEndian(lo: nat, hi: nat)
    requires lo < 256 && hi < 256
    ensures LittleEndian(lo + 256 * hi, 8) == [lo as bv8, hi as bv8] + Zeros(6)
  {
    hide Digit;
    var s := LittleEndian(lo + 256 * hi, 8);
    DigitOf(lo, hi, 0);
    DigitOf(lo, hi, 1);
    forall i | 2 <= i < 8 ensures s[i] == 0 {
      DigitOf(lo, hi, i);
    }
  }

  lemma DigitOf(lo: nat, hi: nat, i: nat)
    requires lo < 256 && hi < 256
    ensures Digit(lo + 256 * hi, i) == if i == 0 then lo else if i == 1 then hi else 0
  {
    if i == 1 {
      FirstDigit(hi);
    } else if i > 1 {
      NoDigit(hi, i - 1);
    }
  }

  lemma OneBlock(p: seq<bv8>)
    requires |p| == 64
    ensures State(p) == Compress(IV, p)
  {
    hide Compress, Compressor, Blocks;
    CompressorCompresses(IV, p);
    OneBlockOf(Compressor(), 64, IV, p);
  }

  lemma TwoBlocks(p: seq<bv8>, q: seq<bv8>)
    requires |p| == |q| == 64
    ensures State(p + q) == Compress(Compress(IV, p), q)
  {
    hide Compress, Compressor, Blocks;
    CompressorCompresses(IV, p);
    CompressorCompresses(Compress(IV, p), q);
    TwoBlocksOf(Compressor(), 64, IV, p, q);
  }

  // the tables of the sixty-four operations, eight at a time

  lemma TablesFrom0()
    ensures WordIndex(0) == 0 && Shift(0) == 7 && T(0) == 0xd76a_a478 && WordIndex(1) == 1 && Shift(1) == 12
    ensures T(1) == 0xe8c7_b756 && WordIndex(2) == 2 && Shift(2) == 17 && T(2) == 0x2420_70db && WordIndex(3) == 3
    ensures Shift(3) == 22 && T(3) == 0xc1bd_ceee && WordIndex(4) == 4 && Shift(4) == 7 && T(4) == 0xf57c_0faf
    ensures WordIndex(5) == 5 && Shift(5) == 12 && T(5) == 0x4787_c62a && WordIndex(6) == 6 && Shift(6) == 17
    ensures T(6) == 0xa830_4613 && WordIndex(7) == 7 && Shift(7) == 22 && T(7) == 0xfd46_9501
  {}

  lemma TablesFrom8()
    ensures WordIndex(8) == 8 && Shift(8) == 7 && T(8) == 0x6980_98d8 && WordIndex(9) == 9 && Shift(9) == 12
    ensures T(9) == 0x8b44_f7af && WordIndex(10) == 10 && Shift(10) == 17 && T(10) == 0xffff_5bb1
    ensures WordIndex(11) == 11 && Shift(11) == 22 && T(11) == 0x895c_d7be && WordIndex(12) == 12 && Shift(12) == 7
    ensures T(12) == 0x6b90_1122 && WordIndex(13) == 13 && Shift(13) == 12 && T(13) == 0xfd98_7193
    ensures WordIndex(14) == 14 && Shift(14) == 17 && T(14) == 0xa679_438e && WordIndex(15) == 15 && Shift(15) == 22
    ensures T(15) == 0x49b4_0821
  {}

  lemma TablesFrom16()
    ensures WordIndex(16) == 1 && Shift(16) == 5 && T(16) == 0xf61e_2562 && WordIndex(17) == 6 && Shift(17) == 9
    ensures T(17) == 0xc040_b340 && WordIndex(18) == 11 && Shift(18) == 14 && T(18) == 0x265e_5a51
    ensures WordIndex(19) == 0 && Shift(19) == 20 && T(19) == 0xe9b6_c7aa && WordIndex(20) == 5 && Shift(20) == 5
    ensures T(20) == 0xd62f_105d && WordIndex(21) == 10 && Shift(21) == 9 && T(21) == 0x0244_1453
    ensures WordIndex(22) == 15 && Shift(22) == 14 && T(22) == 0xd8a1_e681 && WordIndex(23) == 4 && Shift(23) == 20
    ensures T(23) == 0xe7d3_fbc8
  {}

  lemma TablesFrom24()
    ensures WordIndex(24) == 9 && Shift(24) == 5 && T(24) == 0x21e1_cde6 && WordIndex(25) == 14 && Shift(25) == 9
    ensures T(25) == 0xc337_07d6 && WordIndex(26) == 3 && Shift(26) == 14 && T(26) == 0xf4d5_0d87
    ensures WordIndex(27) == 8 && Shift(27) == 20 && T(27) == 0x455a_14ed && WordIndex(28) == 13 && Shift(28) == 5
    ensures T(28) == 0xa9e3_e905 && WordIndex(29) == 2 && Shift(29) == 9 && T(29) == 0xfcef_a3f8
    ensures WordIndex(30) == 7 && Shift(30) == 14 && T(30) == 0x676f_02d9 && WordIndex(31) == 12 && Shift(31) == 20
    ensures T(31) == 0x8d2a_4c8a
  {}

  lemma TablesFrom32()
    ensures WordIndex(32) == 5 && Shift(32) == 4 && T(32) == 0xfffa_3942 && WordIndex(33) == 8 && Shift(33) == 11
    ensures T(33) == 0x8771_f681 && WordIndex(34) == 11 && Shift(34) == 16 && T(34) == 0x6d9d_6122
    ensures WordIndex(35) == 14 && Shift(35) == 23 && T(35) == 0xfde5_380c && WordIndex(36) == 1 && Shift(36) == 4
    ensures T(36) == 0xa4be_ea44 && WordIndex(37) == 4 && Shift(37) == 11 && T(37) == 0x4bde_cfa9
    ensures WordIndex(38) == 7 && Shift(38) == 16 && T(38) == 0xf6bb_4b60 && WordIndex(39) == 10 && Shift(39) == 23
    ensures T(39) == 0xbebf_bc70
  {}

  lemma TablesFrom40()
    ensures WordIndex(40) == 13 && Shift(40) == 4 && T(40) == 0x289b_7ec6 && WordIndex(41) == 0 && Shift(41) == 11
    ensures T(41) == 0xeaa1_27fa && WordIndex(42) == 3 && Shift(42) == 16 && T(42) == 0xd4ef_3085
    ensures WordIndex(43) == 6 && Shift(43) == 23 && T(43) == 0x0488_1d05 && WordIndex(44) == 9 && Shift(44) == 4
    ensures T(44) == 0xd9d4_d039 && WordIndex(45) == 12 && Shift(45) == 11 && T(45) == 0xe6db_99e5
    ensures WordIndex(46) == 15 && Shift(46) == 16 && T(46) == 0x1fa2_7cf8 && WordIndex(47) == 2 && Shift(47) == 23
    ensures T(47) == 0xc4ac_5665
  {}

  lemma TablesFrom48()
    ensures WordIndex(48) == 0 && Shift(48) == 6 && T(48) == 0xf429_2244 && WordIndex(49) == 7 && Shift(49) == 10
    ensures T(49) == 0x432a_ff97 && WordIndex(50) == 14 && Shift(50) == 15 && T(50) == 0xab94_23a7
    ensures WordIndex(51) == 5 && Shift(51) == 21 && T(51) == 0xfc93_a039 && WordIndex(52) == 12 && Shift(52) == 6
    ensures T(52) == 0x655b_59c3 && WordIndex(53) == 3 && Shift(53) == 10 && T(53) == 0x8f0c_cc92
    ensures WordIndex(54) == 10 && Shift(54) == 15 && T(54) == 0xffef_f47d && WordIndex(55) == 1 && Shift(55) == 21
    ensures T(55) == 0x8584_5dd1
  {}

  lemma TablesFrom56()
    ensures WordIndex(56) == 8 && Shift(56) == 6 && T(56) == 0x6fa8_7e4f && WordIndex(57) == 15 && Shift(57) == 10
    ensures T(57) == 0xfe2c_e6e0 && WordIndex(58) == 6 && Shift(58) == 15 && T(58) == 0xa301_4314
    ensures WordIndex(59) == 13 && Shift(59) == 21 && T(59) == 0x4e08_11a1 && WordIndex(60) == 4 && Shift(60) == 6
    ensures T(60) == 0xf753_7e82 && WordIndex(61) == 11 && Shift(61) == 10 && T(61) == 0xbd3a_f235
    ensures WordIndex(62) == 2 && Shift(62) == 15 && T(62) == 0x2ad7_d2bb && WordIndex(63) == 9 && Shift(63) == 21
    ensures T(63) == 0xeb86_d391
  {}

  // ----- the message "abc"

  function Abc(): (s: seq<bv8>)
    ensures |s| == 64
  {
    [0x61, 0x62, 0x63, 0x80] + Zeros(52) + [0x18] + Zeros(7)
  }

  function AbcWords(): (x: seq<bv32>)
    ensures |x| == 16
  {
    [0x8063_6261, 0, 0, 0, 0, 0, 0, 0, 0, 0, 0, 0, 0, 0, 24, 0]
  }

  lemma AbcAre()
    ensures AbcWords()[0] == 0x8063_6261 && AbcWords()[1] == 0 && AbcWords()[2] == 0 && AbcWords()[3] == 0
    ensures AbcWords()[4] == 0 && AbcWords()[5] == 0 && AbcWords()[6] == 0 && AbcWords()[7] == 0
    ensures AbcWords()[8] == 0 && AbcWords()[9] == 0 && AbcWords()[10] == 0 && AbcWords()[11] == 0
    ensures AbcWords()[12] == 0 && AbcWords()[13] == 0 && AbcWords()[14] == 24 && AbcWords()[15] == 0
  {}

  lemma AbcIsWords()
    ensures Words(Abc()) == AbcWords()
  {
    hide Word;
    AbcInWords();
    var s := Abc();
    assert s[0..4] == [0x61, 0x62, 0x63, 0x80];
    assert s[4..8] == [0x00, 0x00, 0x00, 0x00];
    assert s[8..12] == [0x00, 0x00, 0x00, 0x00];
    assert s[12..16] == [0x00, 0x00, 0x00, 0x00];
    assert s[16..20] == [0x00, 0x00, 0x00, 0x00];
    assert s[20..24] == [0x00, 0x00, 0x00, 0x00];
    assert s[24..28] == [0x00, 0x00, 0x00, 0x00];
    assert s[28..32] == [0x00, 0x00, 0x00, 0x00];
    assert s[32..36] == [0x00, 0x00, 0x00, 0x00];
    assert s[36..40] == [0x00, 0x00, 0x00, 0x00];
    assert s[40..44] == [0x00, 0x00, 0x00, 0x00];
    assert s[44..48] == [0x00, 0x00, 0x00, 0x00];
    assert s[48..52] == [0x00, 0x00, 0x00, 0x00];
    assert s[52..56] == [0x00, 0x00, 0x00, 0x00];
    assert s[56..60] == [0x18, 0x00, 0x00, 0x00];
    assert s[60..64] == [0x00, 0x00, 0x00, 0x00];
    AbcAre();
    hide Abc;
  }

  lemma AbcInWords()
    ensures Word([0x61, 0x62, 0x63, 0x80]) == 0x8063_6261
    ensures Word([0x00, 0x00, 0x00, 0x00]) == 0
    ensures Word([0x18, 0x00, 0x00, 0x00]) == 24
  {}

  lemma AbcStepsTo8()
    ensures Steps(IV, AbcWords(), 8) == Regs4(0xc737_41ef, 0x928d_99f6, 0x207d_c67b, 0x8bac_3051)
  {
    hide Steps, AbcWords, WordIndex, Shift, T;
    AbcAre();
    TablesFrom0();
    NoSteps(IV, AbcWords());
    var b1 := StepAt(IV, AbcWords(), 0, F(0xefcd_ab89, 0x98ba_dcfe, 0x1032_5476), 0x8063_6261, 7, 0xd76a_a478,
      0x6745_2301, 0xefcd_ab89, 0x98ba_dcfe, 0x1032_5476);
    var b2 := StepAt(IV, AbcWords(), 1, F(b1, 0xefcd_ab89, 0x98ba_dcfe), 0, 12, 0xe8c7_b756, 0x1032_5476, b1,
      0xefcd_ab89, 0x98ba_dcfe);
    var b3 := StepAt(IV, AbcWords(), 2, F(b2, b1, 0xefcd_ab89), 0, 17, 0x2420_70db, 0x98ba_dcfe, b2, b1, 0xefcd_ab89);
    var b4 := StepAt(IV, AbcWords(), 3, F(b3, b2, b1), 0, 22, 0xc1bd_ceee, 0xefcd_ab89, b3, b2, b1);
    var b5 := StepAt(IV, AbcWords(), 4, F(b4, b3, b2), 0, 7, 0xf57c_0faf, b1, b4, b3, b2);
    var b6 := StepAt(IV, AbcWords(), 5, F(b5, b4, b3), 0, 12, 0x4787_c62a, b2, b5, b4, b3);
    var b7 := StepAt(IV, AbcWords(), 6, F(b6, b5, b4), 0, 17, 0xa830_4613, b3, b6, b5, b4);
    var b8 := StepAt(IV, AbcWords(), 7, F(b7, b6, b5), 0, 22, 0xfd46_9501, b4, b7, b6, b5);
  }

  lemma AbcStepsTo16()
    ensures Steps(IV, AbcWords(), 16) == Regs4(0xdda9_b9a6, 0x72af_f2e0, 0xe396_856b, 0xa105_1895)
  {
    hide Steps, AbcWords, WordIndex, Shift, T;
    AbcAre();
    TablesFrom8();
    AbcStepsTo8();
    var b9 := StepAt(IV, AbcWords(), 8, F(0x928d_99f6, 0x207d_c67b, 0x8bac_3051), 0, 7, 0x6980_98d8, 0xc737_41ef,
      0x928d_99f6, 0x207d_c67b, 0x8bac_3051);
    var b10 := StepAt(IV, AbcWords(), 9, F(b9, 0x928d_99f6, 0x207d_c67b), 0, 12, 0x8b44_f7af, 0x8bac_3051, b9,
      0x928d_99f6, 0x207d_c67b);
    var b11 := StepAt(IV, AbcWords(), 10, F(b10, b9, 0x928d_99f6), 0, 17, 0xffff_5bb1, 0x207d_c67b, b10, b9,
      0x928d_99f6);
    var b12 := StepAt(IV, AbcWords(), 11, F(b11, b10, b9), 0, 22, 0x895c_d7be, 0x928d_99f6, b11, b10, b9);
    var b13 := StepAt(IV, AbcWords(), 12, F(b12, b11, b10), 0, 7, 0x6b90_1122, b9, b12, b11, b10);
    var b14 := StepAt(IV, AbcWords(), 13, F(b13, b12, b11), 0, 12, 0xfd98_7193, b10, b13, b12, b11);
    var b15 := StepAt(IV, AbcWords(), 14, F(b14, b13, b12), 24, 17, 0xa679_438e, b11, b14, b13, b12);
    var b16 := StepAt(IV, AbcWords(), 15, F(b15, b14, b13), 0, 22, 0x49b4_0821, b12, b15, b14, b13);
  }

  lemma AbcStepsTo24()
    ensures Steps(IV, AbcWords(), 24) == Regs4(0x59a8_ffda, 0x4709_2c07, 0xabfc_7920, 0x6d00_2f1e)
  {
    hide Steps, AbcWords, WordIndex, Shift, T;
    AbcAre();
    TablesFrom16();
    AbcStepsTo16();
    var b17 := StepAt(IV, AbcWords(), 16, G(0x72af_f2e0, 0xe396_856b, 0xa105_1895), 0, 5, 0xf61e_2562, 0xdda9_b9a6,
      0x72af_f2e0, 0xe396_856b, 0xa105_1895);
    var b18 := StepAt(IV, AbcWords(), 17, G(b17, 0x72af_f2e0, 0xe396_856b), 0, 9, 0xc040_b340, 0xa105_1895, b17,
      0x72af_f2e0, 0xe396_856b);
    var b19 := StepAt(IV, AbcWords(), 18, G(b18, b17, 0x72af_f2e0), 0, 14, 0x265e_5a51, 0xe396_856b, b18, b17,
      0x72af_f2e0);
    var b20 := StepAt(IV, AbcWords(), 19, G(b19, b18, b17), 0x8063_6261, 20, 0xe9b6_c7aa, 0x72af_f2e0, b19, b18, b17);
    var b21 := StepAt(IV, AbcWords(), 20, G(b20, b19, b18), 0, 5, 0xd62f_105d, b17, b20, b19, b18);
    var b22 := StepAt(IV, AbcWords(), 21, G(b21, b20, b19), 0, 9, 0x0244_1453, b18, b21, b20, b19);
    var b23 := StepAt(IV, AbcWords(), 22, G(b22, b21, b20), 0, 14, 0xd8a1_e681, b19, b22, b21, b20);
    var b24 := StepAt(IV, AbcWords(), 23, G(b23, b22, b21), 0, 20, 0xe7d3_fbc8, b20, b23, b22, b21);
  }

  lemma AbcStepsTo32()
    ensures Steps(IV, AbcWords(), 32) == Regs4(0x790a_77fb, 0x7263_42d3, 0xa628_84aa, 0x9f47_e4f8)
  {
    hide Steps, AbcWords, WordIndex, Shift, T;
    AbcAre();
    TablesFrom24();
    AbcStepsTo24();
    var b25 := StepAt(IV, AbcWords(), 24, G(0x4709_2c07, 0xabfc_7920, 0x6d00_2f1e), 0, 5, 0x21e1_cde6, 0x59a8_ffda,
      0x4709_2c07, 0xabfc_7920, 0x6d00_2f1e);
    var b26 := StepAt(IV, AbcWords(), 25, G(b25, 0x4709_2c07, 0xabfc_7920), 24, 9, 0xc337_07d6, 0x6d00_2f1e, b25,
      0x4709_2c07, 0xabfc_7920);
    var b27 := StepAt(IV, AbcWords(), 26, G(b26, b25, 0x4709_2c07), 0, 14, 0xf4d5_0d87, 0xabfc_7920, b26, b25,
      0x4709_2c07);
    var b28 := StepAt(IV, AbcWords(), 27, G(b27, b26, b25), 0, 20, 0x455a_14ed, 0x4709_2c07, b27, b26, b25);
    var b29 := StepAt(IV, AbcWords(), 28, G(b28, b27, b26), 0, 5, 0xa9e3_e905, b25, b28, b27, b26);
    var b30 := StepAt(IV, AbcWords(), 29, G(b29, b28, b27), 0, 9, 0xfcef_a3f8, b26, b29, b28, b27);
    var b31 := StepAt(IV, AbcWords(), 30, G(b30, b29, b28), 0, 14, 0x676f_02d9, b27, b30, b29, b28);
    var b32 := StepAt(IV, AbcWords(), 31, G(b31, b30, b29), 0, 20, 0x8d2a_4c8a, b28, b31, b30, b29);
  }

  lemma AbcStepsTo40()
    ensures Steps(IV, AbcWords(), 40) == Regs4(0x21b1_17b9, 0x5a2f_5ea5, 0x3575_227e, 0x6e74_29d5)
  {
    hide Steps, AbcWords, WordIndex, Shift, T;
    AbcAre();
    TablesFrom32();
    AbcStepsTo32();
    var b33 := StepAt(IV, AbcWords(), 32, H(0x7263_42d3, 0xa628_84aa, 0x9f47_e4f8), 0, 4, 0xfffa_3942, 0x790a_77fb,
      0x7263_42d3, 0xa628_84aa, 0x9f47_e4f8);
    var b34 := StepAt(IV, AbcWords(), 33, H(b33, 0x7263_42d3, 0xa628_84aa), 0, 11, 0x8771_f681, 0x9f47_e4f8, b33,
      0x7263_42d3, 0xa628_84aa);
    var b35 := StepAt(IV, AbcWords(), 34, H(b34, b33, 0x7263_42d3), 0, 16, 0x6d9d_6122, 0xa628_84aa, b34, b33,
      0x7263_42d3);
    var b36 := StepAt(IV, AbcWords(), 35, H(b35, b34, b33), 24, 23, 0xfde5_380c, 0x7263_42d3, b35, b34, b33);
    var b37 := StepAt(IV, AbcWords(), 36, H(b36, b35, b34), 0, 4, 0xa4be_ea44, b33, b36, b35, b34);
    var b38 := StepAt(IV, AbcWords(), 37, H(b37, b36, b35), 0, 11, 0x4bde_cfa9, b34, b37, b36, b35);
    var b39 := StepAt(IV, AbcWords(), 38, H(b38, b37, b36), 0, 16, 0xf6bb_4b60, b35, b38, b37, b36);
    var b40 := StepAt(IV, AbcWords(), 39, H(b39, b38, b37), 0, 23, 0xbebf_bc70, b36, b39, b38, b37);
  }

  lemma AbcStepsTo48()
    ensures Steps(IV, AbcWords(), 48) == Regs4(0x7f2e_507b, 0x7beb_9700, 0x8fae_6399, 0x99d9_679d)
  {
    hide Steps, AbcWords, WordIndex, Shift, T;
    AbcAre();
    TablesFrom40();
    AbcStepsTo40();
    var b41 := StepAt(IV, AbcWords(), 40, H(0x5a2f_5ea5, 0x3575_227e, 0x6e74_29d5), 0, 4, 0x289b_7ec6, 0x21b1_17b9,
      0x5a2f_5ea5, 0x3575_227e, 0x6e74_29d5);
    var b42 := StepAt(IV, AbcWords(), 41, H(b41, 0x5a2f_5ea5, 0x3575_227e), 0x8063_6261, 11, 0xeaa1_27fa,
      0x6e74_29d5, b41, 0x5a2f_5ea5, 0x3575_227e);
    var b43 := StepAt(IV, AbcWords(), 42, H(b42, b41, 0x5a2f_5ea5), 0, 16, 0xd4ef_3085, 0x3575_227e, b42, b41,
      0x5a2f_5ea5);
    var b44 := StepAt(IV, AbcWords(), 43, H(b43, b42, b41), 0, 23, 0x0488_1d05, 0x5a2f_5ea5, b43, b42, b41);
    var b45 := StepAt(IV, AbcWords(), 44, H(b44, b43, b42), 0, 4, 0xd9d4_d039, b41, b44, b43, b42);
    var b46 := StepAt(IV, AbcWords(), 45, H(b45, b44, b43), 0, 11, 0xe6db_99e5, b42, b45, b44, b43);
    var b47 := StepAt(IV, AbcWords(), 46, H(b46, b45, b44), 0, 16, 0x1fa2_7cf8, b43, b46, b45, b44);
    var b48 := StepAt(IV, AbcWords(), 47, H(b47, b46, b45), 0, 23, 0xc4ac_5665, b44, b47, b46, b45);
  }

  lemma AbcStepsTo56()
    ensures Steps(IV, AbcWords(), 56) == Regs4(0x06cc_5e8a, 0x3bfa_2c27, 0x7d63_2dd0, 0x5b0d_97aa)
  {
    hide Steps, AbcWords, WordIndex, Shift, T;
    AbcAre();
    TablesFrom48();
    AbcStepsTo48();
    var b49 := StepAt(IV, AbcWords(), 48, I(0x7beb_9700, 0x8fae_6399, 0x99d9_679d), 0x8063_6261, 6, 0xf429_2244,
      0x7f2e_507b, 0x7beb_9700, 0x8fae_6399, 0x99d9_679d);
    var b50 := StepAt(IV, AbcWords(), 49, I(b49, 0x7beb_9700, 0x8fae_6399), 0, 10, 0x432a_ff97, 0x99d9_679d, b49,
      0x7beb_9700, 0x8fae_6399);
    var b51 := StepAt(IV, AbcWords(), 50, I(b50, b49, 0x7beb_9700), 24, 15, 0xab94_23a7, 0x8fae_6399, b50, b49,
      0x7beb_9700);
    var b52 := StepAt(IV, AbcWords(), 51, I(b51, b50, b49), 0, 21, 0xfc93_a039, 0x7beb_9700, b51, b50, b49);
    var b53 := StepAt(IV, AbcWords(), 52, I(b52, b51, b50), 0, 6, 0x655b_59c3, b49, b52, b51, b50);
    var b54 := StepAt(IV, AbcWords(), 53, I(b53, b52, b51), 0, 10, 0x8f0c_cc92, b50, b53, b52, b51);
    var b55 := StepAt(IV, AbcWords(), 54, I(b54, b53, b52), 0, 15, 0xffef_f47d, b51, b54, b53, b52);
    var b56 := StepAt(IV, AbcWords(), 55, I(b55, b54, b53), 0, 21, 0x8584_5dd1, b52, b55, b54, b53);
  }

  lemma AbcStepsTo64()
    ensures Steps(IV, AbcWords(), 64) == Regs4(0x310a_de8f, 0xc082_26b3, 0xe484_b9d8, 0x624d_8cb2)
  {
    hide Steps, AbcWords, WordIndex, Shift, T;
    AbcAre();
    TablesFrom56();
    AbcStepsTo56();
    var b57 := StepAt(IV, AbcWords(), 56, I(0x3bfa_2c27, 0x7d63_2dd0, 0x5b0d_97aa), 0, 6, 0x6fa8_7e4f, 0x06cc_5e8a,
      0x3bfa_2c27, 0x7d63_2dd0, 0x5b0d_97aa);
    var b58 := StepAt(IV, AbcWords(), 57, I(b57, 0x3bfa_2c27, 0x7d63_2dd0), 0, 10, 0xfe2c_e6e0, 0x5b0d_97aa, b57,
      0x3bfa_2c27, 0x7d63_2dd0);
    var b59 := StepAt(IV, AbcWords(), 58, I(b58, b57, 0x3bfa_2c27), 0, 15, 0xa301_4314, 0x7d63_2dd0, b58, b57,
      0x3bfa_2c27);
    var b60 := StepAt(IV, AbcWords(), 59, I(b59, b58, b57), 0, 21, 0x4e08_11a1, 0x3bfa_2c27, b59, b58, b57);
    var b61 := StepAt(IV, AbcWords(), 60, I(b60, b59, b58), 0, 6, 0xf753_7e82, b57, b60, b59, b58);
    var b62 := StepAt(IV, AbcWords(), 61, I(b61, b60, b59), 0, 10, 0xbd3a_f235, b58, b61, b60, b59);
    var b63 := StepAt(IV, AbcWords(), 62, I(b62, b61, b60), 0, 15, 0x2ad7_d2bb, b59, b62, b61, b60);
    var b64 := StepAt(IV, AbcWords(), 63, I(b63, b62, b61), 0, 21, 0xeb86_d391, b60, b63, b62, b61);
  }

  lemma AbcCompressed()
    ensures Compress(IV, Abc()) == Regs4(0x9850_0190, 0xb04f_d23c, 0x7d3f_96d6, 0x727f_e128)
  {
    hide Steps, Words, AbcWords;
    AbcIsWords();
    AbcStepsTo64();
  }

  lemma AbcPadded()
    ensures Padded(64, [0x61, 0x62, 0x63], LengthField(3)) == Abc()
  {
    FieldOf(3, 0x18, 0);
    hide LengthField;
    PadZerosByRest(64, 8, 3);
  }

  /** The digest of "abc" that the RFC gives. */
  lemma DigestOfAbc()
    ensures Digest([0x61, 0x62, 0x63])
         == [0x90, 0x01, 0x50, 0x98] + [0x3c, 0xd2, 0x4f, 0xb0] + [0xd6, 0x96, 0x3f, 0x7d] + [0x28, 0xe1, 0x7f, 0x72]
  {
    hide Padded, LengthField, WordBytes, RegBytes, Compress, Abc, State;
    AbcPadded();
    AbcCompressed();
    OneBlock(Abc());
    AbcBytes();
    BytesOf4(State(Abc()));
  }

  lemma AbcBytes()
    ensures WordBytes(0x9850_0190) == [0x90, 0x01, 0x50, 0x98]
    ensures WordBytes(0xb04f_d23c) == [0x3c, 0xd2, 0x4f, 0xb0]
    ensures WordBytes(0x7d3f_96d6) == [0xd6, 0x96, 0x3f, 0x7d]
    ensures WordBytes(0x727f_e128) == [0x28, 0xe1, 0x7f, 0x72]
  {}
}
