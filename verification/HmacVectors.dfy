/** digest_hmac_md5 on the first test case of RFC 2202, section 2. */
module HmacVectors {
  import opened BlockStream
  import opened Hmac
  import opened Md5Spec
  import opened Md5Vectors
  import opened WordsInMemory

  function Same(x: bv8, n: nat): (s: seq<bv8>)
    ensures |s| == n
  {
    seq(n, _ => x)
  }

  function HiThere(): (s: seq<bv8>)
    ensures |s| == 8
  {
    [0x48, 0x69, 0x20, 0x54, 0x68, 0x65, 0x72, 0x65]
  }

  /** The state behind each pad, and the inner digest. */
  const InnerState: Regs4 := Regs4(0x0387_33be, 0x290c_39ed, 0x6570_3e6f, 0x8d4c_823e)
  const OuterState: Regs4 := Regs4(0xd82b_3cf5, 0x26ab_9142, 0xe7ac_dd55, 0x4513_07db)

  function InnerDigest(): (s: seq<bv8>)
    ensures |s| == 16
  {
    [0x90, 0x1d, 0x23, 0x73, 0x2e, 0xdc, 0xc0, 0xf1, 0xa1, 0x06, 0x53, 0x2f, 0x6b, 0xe5, 0xec, 0xeb]
  }

  /** The key of the test case under either pad. */
  lemma KeyUnder(pad: bv8)
    ensures XorAll(BlockKey(Same(0x0b, 16)), pad) == Same(0x0b ^ pad, 16) + Same(pad, 48)
  {
    hide Digest;
    var k, u := BlockKey(Same(0x0b, 16)), Same(0x0b ^ pad, 16) + Same(pad, 48);
    assert |Same(0x0b, 16)| <= BLOCK;
    ZeroXor(pad);
    forall i | 0 <= i < 64 ensures XorAll(k, pad)[i] == u[i] {
      if i < 16 {
        assert k[i] == 0x0b;
      } else {
        assert k[i] == 0;
      }
    }
  }

  lemma ZeroXor(x: bv8)
    ensures 0 ^ x == x
  {}

  // ----- the inner pass

  function Inner(): (s: seq<bv8>)
    ensures |s| == 64
  {
    Same(0x3d, 16) + Same(0x36, 48)
  }

  function InnerWords(): (x: seq<bv32>)
    ensures |x| == 16
  {
    [0x3d3d_3d3d, 0x3d3d_3d3d, 0x3d3d_3d3d, 0x3d3d_3d3d, 0x3636_3636, 0x3636_3636, 0x3636_3636, 0x3636_3636,
     0x3636_3636, 0x3636_3636, 0x3636_3636, 0x3636_3636, 0x3636_3636, 0x3636_3636, 0x3636_3636, 0x3636_3636]
  }

  lemma InnerAre()
    ensures InnerWords()[0] == 0x3d3d_3d3d && InnerWords()[1] == 0x3d3d_3d3d && InnerWords()[2] == 0x3d3d_3d3d
    ensures InnerWords()[3] == 0x3d3d_3d3d && InnerWords()[4] == 0x3636_3636 && InnerWords()[5] == 0x3636_3636
    ensures InnerWords()[6] == 0x3636_3636 && InnerWords()[7] == 0x3636_3636 && InnerWords()[8] == 0x3636_3636
    ensures InnerWords()[9] == 0x3636_3636 && InnerWords()[10] == 0x3636_3636 && InnerWords()[11] == 0x3636_3636
    ensures InnerWords()[12] == 0x3636_3636 && InnerWords()[13] == 0x3636_3636 && InnerWords()[14] == 0x3636_3636
    ensures InnerWords()[15] == 0x3636_3636
  {}

  lemma InnerIsWords()
    ensures Words(Inner()) == InnerWords()
  {
    hide Word;
    InnerInWords();
    var s := Inner();
    assert s[0..4] == [0x3d, 0x3d, 0x3d, 0x3d];
    assert s[4..8] == [0x3d, 0x3d, 0x3d, 0x3d];
    assert s[8..12] == [0x3d, 0x3d, 0x3d, 0x3d];
    assert s[12..16] == [0x3d, 0x3d, 0x3d, 0x3d];
    assert s[16..20] == [0x36, 0x36, 0x36, 0x36];
    assert s[20..24] == [0x36, 0x36, 0x36, 0x36];
    assert s[24..28] == [0x36, 0x36, 0x36, 0x36];
    assert s[28..32] == [0x36, 0x36, 0x36, 0x36];
    assert s[32..36] == [0x36, 0x36, 0x36, 0x36];
    assert s[36..40] == [0x36, 0x36, 0x36, 0x36];
    assert s[40..44] == [0x36, 0x36, 0x36, 0x36];
    assert s[44..48] == [0x36, 0x36, 0x36, 0x36];
    assert s[48..52] == [0x36, 0x36, 0x36, 0x36];
    assert s[52..56] == [0x36, 0x36, 0x36, 0x36];
    assert s[56..60] == [0x36, 0x36, 0x36, 0x36];
    assert s[60..64] == [0x36, 0x36, 0x36, 0x36];
    InnerAre();
    hide Inner;
  }

  lemma InnerInWords()
    ensures Word([0x3d, 0x3d, 0x3d, 0x3d]) == 0x3d3d_3d3d
    ensures Word([0x36, 0x36, 0x36, 0x36]) == 0x3636_3636
  {}

  lemma InnerStepsTo8()
    ensures Steps(IV, InnerWords(), 8) == Regs4(0x37cc_f00b, 0x0474_cec1, 0x0836_31e2, 0xc320_e8b8)
  {
    hide Steps, InnerWords, WordIndex, Shift, T;
    InnerAre();
    TablesFrom0();
    NoSteps(IV, InnerWords());
    var b1 := StepAt(IV, InnerWords(), 0, F(0xefcd_ab89, 0x98ba_dcfe, 0x1032_5476), 0x3d3d_3d3d, 7, 0xd76a_a478,
      0x6745_2301, 0xefcd_ab89, 0x98ba_dcfe, 0x1032_5476);
    var b2 := StepAt(IV, InnerWords(), 1, F(b1, 0xefcd_ab89, 0x98ba_dcfe), 0x3d3d_3d3d, 12, 0xe8c7_b756,
      0x1032_5476, b1, 0xefcd_ab89, 0x98ba_dcfe);
    var b3 := StepAt(IV, InnerWords(), 2, F(b2, b1, 0xefcd_ab89), 0x3d3d_3d3d, 17, 0x2420_70db, 0x98ba_dcfe, b2,
      b1, 0xefcd_ab89);
    var b4 := StepAt(IV, InnerWords(), 3, F(b3, b2, b1), 0x3d3d_3d3d, 22, 0xc1bd_ceee, 0xefcd_ab89, b3, b2, b1);
    var b5 := StepAt(IV, InnerWords(), 4, F(b4, b3, b2), 0x3636_3636, 7, 0xf57c_0faf, b1, b4, b3, b2);
    var b6 := StepAt(IV, InnerWords(), 5, F(b5, b4, b3), 0x3636_3636, 12, 0x4787_c62a, b2, b5, b4, b3);
    var b7 := StepAt(IV, InnerWords(), 6, F(b6, b5, b4), 0x3636_3636, 17, 0xa830_4613, b3, b6, b5, b4);
    var b8 := StepAt(IV, InnerWords(), 7, F(b7, b6, b5), 0x3636_3636, 22, 0xfd46_9501, b4, b7, b6, b5);
  }

  lemma InnerStepsTo16()
    ensures Steps(IV, InnerWords(), 16) == Regs4(0xf9b0_dc9e, 0x2f83_7e60, 0x7d10_a5a1, 0x6554_7f3b)
  {
    hide Steps, InnerWords, WordIndex, Shift, T;
    InnerAre();
    TablesFrom8();
    InnerStepsTo8();
    var b9 := StepAt(IV, InnerWords(), 8, F(0x0474_cec1, 0x0836_31e2, 0xc320_e8b8), 0x3636_3636, 7, 0x6980_98d8,
      0x37cc_f00b, 0x0474_cec1, 0x0836_31e2, 0xc320_e8b8);
    var b10 := StepAt(IV, InnerWords(), 9, F(b9, 0x0474_cec1, 0x0836_31e2), 0x3636_3636, 12, 0x8b44_f7af,
      0xc320_e8b8, b9, 0x0474_cec1, 0x0836_31e2);
    var b11 := StepAt(IV, InnerWords(), 10, F(b10, b9, 0x0474_cec1), 0x3636_3636, 17, 0xffff_5bb1, 0x0836_31e2,
      b10, b9, 0x0474_cec1);
    var b12 := StepAt(IV, InnerWords(), 11, F(b11, b10, b9), 0x3636_3636, 22, 0x895c_d7be, 0x0474_cec1, b11, b10, b9);
    var b13 := StepAt(IV, InnerWords(), 12, F(b12, b11, b10), 0x3636_3636, 7, 0x6b90_1122, b9, b12, b11, b10);
    var b14 := StepAt(IV, InnerWords(), 13, F(b13, b12, b11), 0x3636_3636, 12, 0xfd98_7193, b10, b13, b12, b11);
    var b15 := StepAt(IV, InnerWords(), 14, F(b14, b13, b12), 0x3636_3636, 17, 0xa679_438e, b11, b14, b13, b12);
    var b16 := StepAt(IV, InnerWords(), 15, F(b15, b14, b13), 0x3636_3636, 22, 0x49b4_0821, b12, b15, b14, b13);
  }

  lemma InnerStepsTo24()
    ensures Steps(IV, InnerWords(), 24) == Regs4(0xb03b_19fc, 0x45cb_0da8, 0xb542_36b2, 0x3c27_7df1)
  {
    hide Steps, InnerWords, WordIndex, Shift, T;
    InnerAre();
    TablesFrom16();
    InnerStepsTo16();
    var b17 := StepAt(IV, InnerWords(), 16, G(0x2f83_7e60, 0x7d10_a5a1, 0x6554_7f3b), 0x3d3d_3d3d, 5, 0xf61e_2562,
      0xf9b0_dc9e, 0x2f83_7e60, 0x7d10_a5a1, 0x6554_7f3b);
    var b18 := StepAt(IV, InnerWords(), 17, G(b17, 0x2f83_7e60, 0x7d10_a5a1), 0x3636_3636, 9, 0xc040_b340,
      0x6554_7f3b, b17, 0x2f83_7e60, 0x7d10_a5a1);
    var b19 := StepAt(IV, InnerWords(), 18, G(b18, b17, 0x2f83_7e60), 0x3636_3636, 14, 0x265e_5a51, 0x7d10_a5a1,
      b18, b17, 0x2f83_7e60);
    var b20 := StepAt(IV, InnerWords(), 19, G(b19, b18, b17), 0x3d3d_3d3d, 20, 0xe9b6_c7aa, 0x2f83_7e60, b19, b18,
      b17);
    var b21 := StepAt(IV, InnerWords(), 20, G(b20, b19, b18), 0x3636_3636, 5, 0xd62f_105d, b17, b20, b19, b18);
    var b22 := StepAt(IV, InnerWords(), 21, G(b21, b20, b19), 0x3636_3636, 9, 0x0244_1453, b18, b21, b20, b19);
    var b23 := StepAt(IV, InnerWords(), 22, G(b22, b21, b20), 0x3636_3636, 14, 0xd8a1_e681, b19, b22, b21, b20);
    var b24 := StepAt(IV, InnerWords(), 23, G(b23, b22, b21), 0x3636_3636, 20, 0xe7d3_fbc8, b20, b23, b22, b21);
  }

  lemma InnerStepsTo32()
    ensures Steps(IV, InnerWords(), 32) == Regs4(0xd5ee_2362, 0x57d9_e4a4, 0xeff4_eaa1, 0x14d1_1bca)
  {
    hide Steps, InnerWords, WordIndex, Shift, T;
    InnerAre();
    TablesFrom24();
    InnerStepsTo24();
    var b25 := StepAt(IV, InnerWords(), 24, G(0x45cb_0da8, 0xb542_36b2, 0x3c27_7df1), 0x3636_3636, 5, 0x21e1_cde6,
      0xb03b_19fc, 0x45cb_0da8, 0xb542_36b2, 0x3c27_7df1);
    var b26 := StepAt(IV, InnerWords(), 25, G(b25, 0x45cb_0da8, 0xb542_36b2), 0x3636_3636, 9, 0xc337_07d6,
      0x3c27_7df1, b25, 0x45cb_0da8, 0xb542_36b2);
    var b27 := StepAt(IV, InnerWords(), 26, G(b26, b25, 0x45cb_0da8), 0x3d3d_3d3d, 14, 0xf4d5_0d87, 0xb542_36b2,
      b26, b25, 0x45cb_0da8);
    var b28 := StepAt(IV, InnerWords(), 27, G(b27, b26, b25), 0x3636_3636, 20, 0x455a_14ed, 0x45cb_0da8, b27, b26,
      b25);
    var b29 := StepAt(IV, InnerWords(), 28, G(b28, b27, b26), 0x3636_3636, 5, 0xa9e3_e905, b25, b28, b27, b26);
    var b30 := StepAt(IV, InnerWords(), 29, G(b29, b28, b27), 0x3d3d_3d3d, 9, 0xfcef_a3f8, b26, b29, b28, b27);
    var b31 := StepAt(IV, InnerWords(), 30, G(b30, b29, b28), 0x3636_3636, 14, 0x676f_02d9, b27, b30, b29, b28);
    var b32 := StepAt(IV, InnerWords(), 31, G(b31, b30, b29), 0x3636_3636, 20, 0x8d2a_4c8a, b28, b31, b30, b29);
  }

  lemma InnerStepsTo40()
    ensures Steps(IV, InnerWords(), 40) == Regs4(0x7df8_fe7c, 0xa27f_b8e6, 0x8f37_14ea, 0x0254_cf17)
  {
    hide Steps, InnerWords, WordIndex, Shift, T;
    InnerAre();
    TablesFrom32();
    InnerStepsTo32();
    var b33 := StepAt(IV, InnerWords(), 32, H(0x57d9_e4a4, 0xeff4_eaa1, 0x14d1_1bca), 0x3636_3636, 4, 0xfffa_3942,
      0xd5ee_2362, 0x57d9_e4a4, 0xeff4_eaa1, 0x14d1_1bca);
    var b34 := StepAt(IV, InnerWords(), 33, H(b33, 0x57d9_e4a4, 0xeff4_eaa1), 0x3636_3636, 11, 0x8771_f681,
      0x14d1_1bca, b33, 0x57d9_e4a4, 0xeff4_eaa1);
    var b35 := StepAt(IV, InnerWords(), 34, H(b34, b33, 0x57d9_e4a4), 0x3636_3636, 16, 0x6d9d_6122, 0xeff4_eaa1,
      b34, b33, 0x57d9_e4a4);
    var b36 := StepAt(IV, InnerWords(), 35, H(b35, b34, b33), 0x3636_3636, 23, 0xfde5_380c, 0x57d9_e4a4, b35, b34,
      b33);
    var b37 := StepAt(IV, InnerWords(), 36, H(b36, b35, b34), 0x3d3d_3d3d, 4, 0xa4be_ea44, b33, b36, b35, b34);
    var b38 := StepAt(IV, InnerWords(), 37, H(b37, b36, b35), 0x3636_3636, 11, 0x4bde_cfa9, b34, b37, b36, b35);
    var b39 := StepAt(IV, InnerWords(), 38, H(b38, b37, b36), 0x3636_3636, 16, 0xf6bb_4b60, b35, b38, b37, b36);
    var b40 := StepAt(IV, InnerWords(), 39, H(b39, b38, b37), 0x3636_3636, 23, 0xbebf_bc70, b36, b39, b38, b37);
  }

  lemma InnerStepsTo48()
    ensures Steps(IV, InnerWords(), 48) == Regs4(0x5064_0d4a, 0xf538_24fe, 0x2e43_6344, 0x73fa_ca73)
  {
    hide Steps, InnerWords, WordIndex, Shift, T;
    InnerAre();
    TablesFrom40();
    InnerStepsTo40();
    var b41 := StepAt(IV, InnerWords(), 40, H(0xa27f_b8e6, 0x8f37_14ea, 0x0254_cf17), 0x3636_3636, 4, 0x289b_7ec6,
      0x7df8_fe7c, 0xa27f_b8e6, 0x8f37_14ea, 0x0254_cf17);
    var b42 := StepAt(IV, InnerWords(), 41, H(b41, 0xa27f_b8e6, 0x8f37_14ea), 0x3d3d_3d3d, 11, 0xeaa1_27fa,
      0x0254_cf17, b41, 0xa27f_b8e6, 0x8f37_14ea);
    var b43 := StepAt(IV, InnerWords(), 42, H(b42, b41, 0xa27f_b8e6), 0x3d3d_3d3d, 16, 0xd4ef_3085, 0x8f37_14ea,
      b42, b41, 0xa27f_b8e6);
    var b44 := StepAt(IV, InnerWords(), 43, H(b43, b42, b41), 0x3636_3636, 23, 0x0488_1d05, 0xa27f_b8e6, b43, b42,
      b41);
    var b45 := StepAt(IV, InnerWords(), 44, H(b44, b43, b42), 0x3636_3636, 4, 0xd9d4_d039, b41, b44, b43, b42);
    var b46 := StepAt(IV, InnerWords(), 45, H(b45, b44, b43), 0x3636_3636, 11, 0xe6db_99e5, b42, b45, b44, b43);
    var b47 := StepAt(IV, InnerWords(), 46, H(b46, b45, b44), 0x3636_3636, 16, 0x1fa2_7cf8, b43, b46, b45, b44);
    var b48 := StepAt(IV, InnerWords(), 47, H(b47, b46, b45), 0x3d3d_3d3d, 23, 0xc4ac_5665, b44, b47, b46, b45);
  }

  lemma InnerStepsTo56()
    ensures Steps(IV, InnerWords(), 56) == Regs4(0x1522_ac58, 0xd53f_0132, 0x1935_8ab5, 0xaa46_61ca)
  {
    hide Steps, InnerWords, WordIndex, Shift, T;
    InnerAre();
    TablesFrom48();
    InnerStepsTo48();
    var b49 := StepAt(IV, InnerWords(), 48, I(0xf538_24fe, 0x2e43_6344, 0x73fa_ca73), 0x3d3d_3d3d, 6, 0xf429_2244,
      0x5064_0d4a, 0xf538_24fe, 0x2e43_6344, 0x73fa_ca73);
    var b50 := StepAt(IV, InnerWords(), 49, I(b49, 0xf538_24fe, 0x2e43_6344), 0x3636_3636, 10, 0x432a_ff97,
      0x73fa_ca73, b49, 0xf538_24fe, 0x2e43_6344);
    var b51 := StepAt(IV, InnerWords(), 50, I(b50, b49, 0xf538_24fe), 0x3636_3636, 15, 0xab94_23a7, 0x2e43_6344,
      b50, b49, 0xf538_24fe);
    var b52 := StepAt(IV, InnerWords(), 51, I(b51, b50, b49), 0x3636_3636, 21, 0xfc93_a039, 0xf538_24fe, b51, b50,
      b49);
    var b53 := StepAt(IV, InnerWords(), 52, I(b52, b51, b50), 0x3636_3636, 6, 0x655b_59c3, b49, b52, b51, b50);
    var b54 := StepAt(IV, InnerWords(), 53, I(b53, b52, b51), 0x3d3d_3d3d, 10, 0x8f0c_cc92, b50, b53, b52, b51);
    var b55 := StepAt(IV, InnerWords(), 54, I(b54, b53, b52), 0x3636_3636, 15, 0xffef_f47d, b51, b54, b53, b52);
    var b56 := StepAt(IV, InnerWords(), 55, I(b55, b54, b53), 0x3d3d_3d3d, 21, 0x8584_5dd1, b52, b55, b54, b53);
  }

  lemma InnerStepsTo64()
    ensures Steps(IV, InnerWords(), 64) == Regs4(0x9c42_10bd, 0x393e_8e64, 0xccb5_6171, 0x7d1a_2dc8)
  {
    hide Steps, InnerWords, WordIndex, Shift, T;
    InnerAre();
    TablesFrom56();
    InnerStepsTo56();
    var b57 := StepAt(IV, InnerWords(), 56, I(0xd53f_0132, 0x1935_8ab5, 0xaa46_61ca), 0x3636_3636, 6, 0x6fa8_7e4f,
      0x1522_ac58, 0xd53f_0132, 0x1935_8ab5, 0xaa46_61ca);
    var b58 := StepAt(IV, InnerWords(), 57, I(b57, 0xd53f_0132, 0x1935_8ab5), 0x3636_3636, 10, 0xfe2c_e6e0,
      0xaa46_61ca, b57, 0xd53f_0132, 0x1935_8ab5);
    var b59 := StepAt(IV, InnerWords(), 58, I(b58, b57, 0xd53f_0132), 0x3636_3636, 15, 0xa301_4314, 0x1935_8ab5,
      b58, b57, 0xd53f_0132);
    var b60 := StepAt(IV, InnerWords(), 59, I(b59, b58, b57), 0x3636_3636, 21, 0x4e08_11a1, 0xd53f_0132, b59, b58,
      b57);
    var b61 := StepAt(IV, InnerWords(), 60, I(b60, b59, b58), 0x3636_3636, 6, 0xf753_7e82, b57, b60, b59, b58);
    var b62 := StepAt(IV, InnerWords(), 61, I(b61, b60, b59), 0x3636_3636, 10, 0xbd3a_f235, b58, b61, b60, b59);
    var b63 := StepAt(IV, InnerWords(), 62, I(b62, b61, b60), 0x3d3d_3d3d, 15, 0x2ad7_d2bb, b59, b62, b61, b60);
    var b64 := StepAt(IV, InnerWords(), 63, I(b63, b62, b61), 0x3636_3636, 21, 0xeb86_d391, b60, b63, b62, b61);
  }

  lemma InnerCompressed()
    ensures Compress(IV, Inner()) == Regs4(0x0387_33be, 0x290c_39ed, 0x6570_3e6f, 0x8d4c_823e)
  {
    hide Steps, Words, InnerWords;
    InnerIsWords();
    InnerStepsTo64();
  }

  // ----- the text, behind the inner pad

  function Text(): (s: seq<bv8>)
    ensures |s| == 64
  {
    [0x48, 0x69, 0x20, 0x54, 0x68, 0x65, 0x72, 0x65, 0x80] + Zeros(47) + [0x40, 0x02] + Zeros(6)
  }

  function TextWords(): (x: seq<bv32>)
    ensures |x| == 16
  {
    [0x5420_6948, 0x6572_6568, 128, 0, 0, 0, 0, 0, 0, 0, 0, 0, 0, 0, 576, 0]
  }

  lemma TextAre()
    ensures TextWords()[0] == 0x5420_6948 && TextWords()[1] == 0x6572_6568 && TextWords()[2] == 128
    ensures TextWords()[3] == 0 && TextWords()[4] == 0 && TextWords()[5] == 0 && TextWords()[6] == 0
    ensures TextWords()[7] == 0 && TextWords()[8] == 0 && TextWords()[9] == 0 && TextWords()[10] == 0
    ensures TextWords()[11] == 0 && TextWords()[12] == 0 && TextWords()[13] == 0 && TextWords()[14] == 576
    ensures TextWords()[15] == 0
  {}

  lemma TextIsWords()
    ensures Words(Text()) == TextWords()
  {
    hide Word;
    TextInWords();
    var s := Text();
    assert s[0..4] == [0x48, 0x69, 0x20, 0x54];
    assert s[4..8] == [0x68, 0x65, 0x72, 0x65];
    assert s[8..12] == [0x80, 0x00, 0x00, 0x00];
    assert s[12..16] == [0x00, 0x00, 0x00, 0x00];
    assert s[16..20] == [0x00, 0x00, 0x00, 0x00];
    assert s[20..24] == [0x00, 0x00, 0x00, 0x00];
    assert s[24..28] == [0x00, 0x00, 0x00, 0x00];
    assert s[28..32] == [0x00, 0x00, 0x00, 0x00];
    assert s[32..36] == [0x00, 0x00, 0x00, 0x00];
    assert s[36..40] == [0x00, 0x00, 0x00, 0x00];
    assert s[40..44] == [0x00, 0x00, 0x00, 0x00];
    assert s[44..48] == [0x00, 0x00, 0x00, 0x00];
    assert s[48..52] == [0x00, 0x00, 0x00, 0x00];
    assert s[52..56] == [0x00, 0x00, 0x00, 0x00];
    assert s[56..60] == [0x40, 0x02, 0x00, 0x00];
    assert s[60..64] == [0x00, 0x00, 0x00, 0x00];
    TextAre();
    hide Text;
  }

  lemma TextInWords()
    ensures Word([0x48, 0x69, 0x20, 0x54]) == 0x5420_6948
    ensures Word([0x68, 0x65, 0x72, 0x65]) == 0x6572_6568
    ensures Word([0x80, 0x00, 0x00, 0x00]) == 128
    ensures Word([0x00, 0x00, 0x00, 0x00]) == 0
    ensures Word([0x40, 0x02, 0x00, 0x00]) == 576
  {}

  lemma TextStepsTo8()
    ensures Steps(InnerState, TextWords(), 8) == Regs4(0x4560_f9f4, 0xefb4_b2cb, 0xe115_4e0f, 0x14c6_f7b2)
  {
    hide Steps, TextWords, WordIndex, Shift, T;
    TextAre();
    TablesFrom0();
    NoSteps(InnerState, TextWords());
    var b1 := StepAt(InnerState, TextWords(), 0, F(0x290c_39ed, 0x6570_3e6f, 0x8d4c_823e), 0x5420_6948, 7,
      0xd76a_a478, 0x0387_33be, 0x290c_39ed, 0x6570_3e6f, 0x8d4c_823e);
    var b2 := StepAt(InnerState, TextWords(), 1, F(b1, 0x290c_39ed, 0x6570_3e6f), 0x6572_6568, 12, 0xe8c7_b756,
      0x8d4c_823e, b1, 0x290c_39ed, 0x6570_3e6f);
    var b3 := StepAt(InnerState, TextWords(), 2, F(b2, b1, 0x290c_39ed), 128, 17, 0x2420_70db, 0x6570_3e6f, b2, b1,
      0x290c_39ed);
    var b4 := StepAt(InnerState, TextWords(), 3, F(b3, b2, b1), 0, 22, 0xc1bd_ceee, 0x290c_39ed, b3, b2, b1);
    var b5 := StepAt(InnerState, TextWords(), 4, F(b4, b3, b2), 0, 7, 0xf57c_0faf, b1, b4, b3, b2);
    var b6 := StepAt(InnerState, TextWords(), 5, F(b5, b4, b3), 0, 12, 0x4787_c62a, b2, b5, b4, b3);
    var b7 := StepAt(InnerState, TextWords(), 6, F(b6, b5, b4), 0, 17, 0xa830_4613, b3, b6, b5, b4);
    var b8 := StepAt(InnerState, TextWords(), 7, F(b7, b6, b5), 0, 22, 0xfd46_9501, b4, b7, b6, b5);
  }

  lemma TextStepsTo16()
    ensures Steps(InnerState, TextWords(), 16) == Regs4(0xd776_cc01, 0x1030_3022, 0x1765_26c8, 0x30d3_ff28)
  {
    hide Steps, TextWords, WordIndex, Shift, T;
    TextAre();
    TablesFrom8();
    TextStepsTo8();
    var b9 := StepAt(InnerState, TextWords(), 8, F(0xefb4_b2cb, 0xe115_4e0f, 0x14c6_f7b2), 0, 7, 0x6980_98d8,
      0x4560_f9f4, 0xefb4_b2cb, 0xe115_4e0f, 0x14c6_f7b2);
    var b10 := StepAt(InnerState, TextWords(), 9, F(b9, 0xefb4_b2cb, 0xe115_4e0f), 0, 12, 0x8b44_f7af, 0x14c6_f7b2,
      b9, 0xefb4_b2cb, 0xe115_4e0f);
    var b11 := StepAt(InnerState, TextWords(), 10, F(b10, b9, 0xefb4_b2cb), 0, 17, 0xffff_5bb1, 0xe115_4e0f, b10,
      b9, 0xefb4_b2cb);
    var b12 := StepAt(InnerState, TextWords(), 11, F(b11, b10, b9), 0, 22, 0x895c_d7be, 0xefb4_b2cb, b11, b10, b9);
    var b13 := StepAt(InnerState, TextWords(), 12, F(b12, b11, b10), 0, 7, 0x6b90_1122, b9, b12, b11, b10);
    var b14 := StepAt(InnerState, TextWords(), 13, F(b13, b12, b11), 0, 12, 0xfd98_7193, b10, b13, b12, b11);
    var b15 := StepAt(InnerState, TextWords(), 14, F(b14, b13, b12), 576, 17, 0xa679_438e, b11, b14, b13, b12);
    var b16 := StepAt(InnerState, TextWords(), 15, F(b15, b14, b13), 0, 22, 0x49b4_0821, b12, b15, b14, b13);
  }

  lemma TextStepsTo24()
    ensures Steps(InnerState, TextWords(), 24) == Regs4(0x4852_abe6, 0xb53d_1712, 0x35bb_3ff1, 0x9e64_50e6)
  {
    hide Steps, TextWords, WordIndex, Shift, T;
    TextAre();
    TablesFrom16();
    TextStepsTo16();
    var b17 := StepAt(InnerState, TextWords(), 16, G(0x1030_3022, 0x1765_26c8, 0x30d3_ff28), 0x6572_6568, 5,
      0xf61e_2562, 0xd776_cc01, 0x1030_3022, 0x1765_26c8, 0x30d3_ff28);
    var b18 := StepAt(InnerState, TextWords(), 17, G(b17, 0x1030_3022, 0x1765_26c8), 0, 9, 0xc040_b340,
      0x30d3_ff28, b17, 0x1030_3022, 0x1765_26c8);
    var b19 := StepAt(InnerState, TextWords(), 18, G(b18, b17, 0x1030_3022), 0, 14, 0x265e_5a51, 0x1765_26c8, b18,
      b17, 0x1030_3022);
    var b20 := StepAt(InnerState, TextWords(), 19, G(b19, b18, b17), 0x5420_6948, 20, 0xe9b6_c7aa, 0x1030_3022,
      b19, b18, b17);
    var b21 := StepAt(InnerState, TextWords(), 20, G(b20, b19, b18), 0, 5, 0xd62f_105d, b17, b20, b19, b18);
    var b22 := StepAt(InnerState, TextWords(), 21, G(b21, b20, b19), 0, 9, 0x0244_1453, b18, b21, b20, b19);
    var b23 := StepAt(InnerState, TextWords(), 22, G(b22, b21, b20), 0, 14, 0xd8a1_e681, b19, b22, b21, b20);
    var b24 := StepAt(InnerState, TextWords(), 23, G(b23, b22, b21), 0, 20, 0xe7d3_fbc8, b20, b23, b22, b21);
  }

  lemma TextStepsTo32()
    ensures Steps(InnerState, TextWords(), 32) == Regs4(0x0bd4_658e, 0x7c00_ece8, 0xa111_316d, 0x2c2e_b845)
  {
    hide Steps, TextWords, WordIndex, Shift, T;
    TextAre();
    TablesFrom24();
    TextStepsTo24();
    var b25 := StepAt(InnerState, TextWords(), 24, G(0xb53d_1712, 0x35bb_3ff1, 0x9e64_50e6), 0, 5, 0x21e1_cde6,
      0x4852_abe6, 0xb53d_1712, 0x35bb_3ff1, 0x9e64_50e6);
    var b26 := StepAt(InnerState, TextWords(), 25, G(b25, 0xb53d_1712, 0x35bb_3ff1), 576, 9, 0xc337_07d6,
      0x9e64_50e6, b25, 0xb53d_1712, 0x35bb_3ff1);
    var b27 := StepAt(InnerState, TextWords(), 26, G(b26, b25, 0xb53d_1712), 0, 14, 0xf4d5_0d87, 0x35bb_3ff1, b26,
      b25, 0xb53d_1712);
    var b28 := StepAt(InnerState, TextWords(), 27, G(b27, b26, b25), 0, 20, 0x455a_14ed, 0xb53d_1712, b27, b26, b25);
    var b29 := StepAt(InnerState, TextWords(), 28, G(b28, b27, b26), 0, 5, 0xa9e3_e905, b25, b28, b27, b26);
    var b30 := StepAt(InnerState, TextWords(), 29, G(b29, b28, b27), 128, 9, 0xfcef_a3f8, b26, b29, b28, b27);
    var b31 := StepAt(InnerState, TextWords(), 30, G(b30, b29, b28), 0, 14, 0x676f_02d9, b27, b30, b29, b28);
    var b32 := StepAt(InnerState, TextWords(), 31, G(b31, b30, b29), 0, 20, 0x8d2a_4c8a, b28, b31, b30, b29);
  }

  lemma TextStepsTo40()
    ensures Steps(InnerState, TextWords(), 40) == Regs4(0xda17_e54d, 0x93eb_564a, 0x3256_7e87, 0x9f7e_439f)
  {
    hide Steps, TextWords, WordIndex, Shift, T;
    TextAre();
    TablesFrom32();
    TextStepsTo32();
    var b33 := StepAt(InnerState, TextWords(), 32, H(0x7c00_ece8, 0xa111_316d, 0x2c2e_b845), 0, 4, 0xfffa_3942,
      0x0bd4_658e, 0x7c00_ece8, 0xa111_316d, 0x2c2e_b845);
    var b34 := StepAt(InnerState, TextWords(), 33, H(b33, 0x7c00_ece8, 0xa111_316d), 0, 11, 0x8771_f681,
      0x2c2e_b845, b33, 0x7c00_ece8, 0xa111_316d);
    var b35 := StepAt(InnerState, TextWords(), 34, H(b34, b33, 0x7c00_ece8), 0, 16, 0x6d9d_6122, 0xa111_316d, b34,
      b33, 0x7c00_ece8);
    var b36 := StepAt(InnerState, TextWords(), 35, H(b35, b34, b33), 576, 23, 0xfde5_380c, 0x7c00_ece8, b35, b34,
      b33);
    var b37 := StepAt(InnerState, TextWords(), 36, H(b36, b35, b34), 0x6572_6568, 4, 0xa4be_ea44, b33, b36, b35, b34);
    var b38 := StepAt(InnerState, TextWords(), 37, H(b37, b36, b35), 0, 11, 0x4bde_cfa9, b34, b37, b36, b35);
    var b39 := StepAt(InnerState, TextWords(), 38, H(b38, b37, b36), 0, 16, 0xf6bb_4b60, b35, b38, b37, b36);
    var b40 := StepAt(InnerState, TextWords(), 39, H(b39, b38, b37), 0, 23, 0xbebf_bc70, b36, b39, b38, b37);
  }

  lemma TextStepsTo48()
    ensures Steps(InnerState, TextWords(), 48) == Regs4(0x5284_dbe0, 0x8741_2a3d, 0x9c54_1e52, 0xd3e3_17fe)
  {
    hide Steps, TextWords, WordIndex, Shift, T;
    TextAre();
    TablesFrom40();
    TextStepsTo40();
    var b41 := StepAt(InnerState, TextWords(), 40, H(0x93eb_564a, 0x3256_7e87, 0x9f7e_439f), 0, 4, 0x289b_7ec6,
      0xda17_e54d, 0x93eb_564a, 0x3256_7e87, 0x9f7e_439f);
    var b42 := StepAt(InnerState, TextWords(), 41, H(b41, 0x93eb_564a, 0x3256_7e87), 0x5420_6948, 11, 0xeaa1_27fa,
      0x9f7e_439f, b41, 0x93eb_564a, 0x3256_7e87);
    var b43 := StepAt(InnerState, TextWords(), 42, H(b42, b41, 0x93eb_564a), 0, 16, 0xd4ef_3085, 0x3256_7e87, b42,
      b41, 0x93eb_564a);
    var b44 := StepAt(InnerState, TextWords(), 43, H(b43, b42, b41), 0, 23, 0x0488_1d05, 0x93eb_564a, b43, b42, b41);
    var b45 := StepAt(InnerState, TextWords(), 44, H(b44, b43, b42), 0, 4, 0xd9d4_d039, b41, b44, b43, b42);
    var b46 := StepAt(InnerState, TextWords(), 45, H(b45, b44, b43), 0, 11, 0xe6db_99e5, b42, b45, b44, b43);
    var b47 := StepAt(InnerState, TextWords(), 46, H(b46, b45, b44), 0, 16, 0x1fa2_7cf8, b43, b46, b45, b44);
    var b48 := StepAt(InnerState, TextWords(), 47, H(b47, b46, b45), 128, 23, 0xc4ac_5665, b44, b47, b46, b45);
  }

  lemma TextStepsTo56()
    ensures Steps(InnerState, TextWords(), 56) == Regs4(0x2ee3_50b0, 0x6c33_df3a, 0xacfd_8d82, 0x659e_48b3)
  {
    hide Steps, TextWords, WordIndex, Shift, T;
    TextAre();
    TablesFrom48();
    TextStepsTo48();
    var b49 := StepAt(InnerState, TextWords(), 48, I(0x8741_2a3d, 0x9c54_1e52, 0xd3e3_17fe), 0x5420_6948, 6,
      0xf429_2244, 0x5284_dbe0, 0x8741_2a3d, 0x9c54_1e52, 0xd3e3_17fe);
    var b50 := StepAt(InnerState, TextWords(), 49, I(b49, 0x8741_2a3d, 0x9c54_1e52), 0, 10, 0x432a_ff97,
      0xd3e3_17fe, b49, 0x8741_2a3d, 0x9c54_1e52);
    var b51 := StepAt(InnerState, TextWords(), 50, I(b50, b49, 0x8741_2a3d), 576, 15, 0xab94_23a7, 0x9c54_1e52,
      b50, b49, 0x8741_2a3d);
    var b52 := StepAt(InnerState, TextWords(), 51, I(b51, b50, b49), 0, 21, 0xfc93_a039, 0x8741_2a3d, b51, b50, b49);
    var b53 := StepAt(InnerState, TextWords(), 52, I(b52, b51, b50), 0, 6, 0x655b_59c3, b49, b52, b51, b50);
    var b54 := StepAt(InnerState, TextWords(), 53, I(b53, b52, b51), 0, 10, 0x8f0c_cc92, b50, b53, b52, b51);
    var b55 := StepAt(InnerState, TextWords(), 54, I(b54, b53, b52), 0, 15, 0xffef_f47d, b51, b54, b53, b52);
    var b56 := StepAt(InnerState, TextWords(), 55, I(b55, b54, b53), 0x6572_6568, 21, 0x8584_5dd1, b52, b55, b54,
      b53);
  }

  lemma TextStepsTo64()
    ensures Steps(InnerState, TextWords(), 64) == Regs4(0x6f9b_e9d2, 0xc8b4_a241, 0xc9e2_c832, 0x5ea0_632d)
  {
    hide Steps, TextWords, WordIndex, Shift, T;
    TextAre();
    TablesFrom56();
    TextStepsTo56();
    var b57 := StepAt(InnerState, TextWords(), 56, I(0x6c33_df3a, 0xacfd_8d82, 0x659e_48b3), 0, 6, 0x6fa8_7e4f,
      0x2ee3_50b0, 0x6c33_df3a, 0xacfd_8d82, 0x659e_48b3);
    var b58 := StepAt(InnerState, TextWords(), 57, I(b57, 0x6c33_df3a, 0xacfd_8d82), 0, 10, 0xfe2c_e6e0,
      0x659e_48b3, b57, 0x6c33_df3a, 0xacfd_8d82);
    var b59 := StepAt(InnerState, TextWords(), 58, I(b58, b57, 0x6c33_df3a), 0, 15, 0xa301_4314, 0xacfd_8d82, b58,
      b57, 0x6c33_df3a);
    var b60 := StepAt(InnerState, TextWords(), 59, I(b59, b58, b57), 0, 21, 0x4e08_11a1, 0x6c33_df3a, b59, b58, b57);
    var b61 := StepAt(InnerState, TextWords(), 60, I(b60, b59, b58), 0, 6, 0xf753_7e82, b57, b60, b59, b58);
    var b62 := StepAt(InnerState, TextWords(), 61, I(b61, b60, b59), 0, 10, 0xbd3a_f235, b58, b61, b60, b59);
    var b63 := StepAt(InnerState, TextWords(), 62, I(b62, b61, b60), 128, 15, 0x2ad7_d2bb, b59, b62, b61, b60);
    var b64 := StepAt(InnerState, TextWords(), 63, I(b63, b62, b61), 0, 21, 0xeb86_d391, b60, b63, b62, b61);
  }

  lemma TextCompressed()
    ensures Compress(InnerState, Text()) == Regs4(0x7323_1d90, 0xf1c0_dc2e, 0x2f53_06a1, 0xebec_e56b)
  {
    hide Steps, Words, TextWords;
    TextIsWords();
    TextStepsTo64();
  }

  lemma TextPadded()
    ensures Padded(64, Inner() + HiThere(), LengthField(72)) == Inner() + Text()
  {
    hide Inner, LengthField;
    FieldOf(72, 0x40, 0x02);
    PadZerosByRest(64, 8, 72);
  }

  lemma InnerPass()
    ensures Digest(Inner() + HiThere()) == InnerDigest()
  {
    hide Padded, LengthField, WordBytes, RegBytes, Compress, Inner, Text, State;
    TextPadded();
    InnerCompressed();
    TextCompressed();
    TwoBlocks(Inner(), Text());
    TextBytes();
    BytesOf4(State(Inner() + Text()));
  }

  lemma TextBytes()
    ensures WordBytes(0x7323_1d90) == [0x90, 0x1d, 0x23, 0x73]
    ensures WordBytes(0xf1c0_dc2e) == [0x2e, 0xdc, 0xc0, 0xf1]
    ensures WordBytes(0x2f53_06a1) == [0xa1, 0x06, 0x53, 0x2f]
    ensures WordBytes(0xebec_e56b) == [0x6b, 0xe5, 0xec, 0xeb]
  {}

  // ----- the outer pass

  function Outer(): (s: seq<bv8>)
    ensures |s| == 64
  {
    Same(0x57, 16) + Same(0x5c, 48)
  }

  function OuterWords(): (x: seq<bv32>)
    ensures |x| == 16
  {
    [0x5757_5757, 0x5757_5757, 0x5757_5757, 0x5757_5757, 0x5c5c_5c5c, 0x5c5c_5c5c, 0x5c5c_5c5c, 0x5c5c_5c5c,
     0x5c5c_5c5c, 0x5c5c_5c5c, 0x5c5c_5c5c, 0x5c5c_5c5c, 0x5c5c_5c5c, 0x5c5c_5c5c, 0x5c5c_5c5c, 0x5c5c_5c5c]
  }

  lemma OuterAre()
    ensures OuterWords()[0] == 0x5757_5757 && OuterWords()[1] == 0x5757_5757 && OuterWords()[2] == 0x5757_5757
    ensures OuterWords()[3] == 0x5757_5757 && OuterWords()[4] == 0x5c5c_5c5c && OuterWords()[5] == 0x5c5c_5c5c
    ensures OuterWords()[6] == 0x5c5c_5c5c && OuterWords()[7] == 0x5c5c_5c5c && OuterWords()[8] == 0x5c5c_5c5c
    ensures OuterWords()[9] == 0x5c5c_5c5c && OuterWords()[10] == 0x5c5c_5c5c && OuterWords()[11] == 0x5c5c_5c5c
    ensures OuterWords()[12] == 0x5c5c_5c5c && OuterWords()[13] == 0x5c5c_5c5c && OuterWords()[14] == 0x5c5c_5c5c
    ensures OuterWords()[15] == 0x5c5c_5c5c
  {}

  lemma OuterIsWords()
    ensures Words(Outer()) == OuterWords()
  {
    hide Word;
    OuterInWords();
    var s := Outer();
    assert s[0..4] == [0x57, 0x57, 0x57, 0x57];
    assert s[4..8] == [0x57, 0x57, 0x57, 0x57];
    assert s[8..12] == [0x57, 0x57, 0x57, 0x57];
    assert s[12..16] == [0x57, 0x57, 0x57, 0x57];
    assert s[16..20] == [0x5c, 0x5c, 0x5c, 0x5c];
    assert s[20..24] == [0x5c, 0x5c, 0x5c, 0x5c];
    assert s[24..28] == [0x5c, 0x5c, 0x5c, 0x5c];
    assert s[28..32] == [0x5c, 0x5c, 0x5c, 0x5c];
    assert s[32..36] == [0x5c, 0x5c, 0x5c, 0x5c];
    assert s[36..40] == [0x5c, 0x5c, 0x5c, 0x5c];
    assert s[40..44] == [0x5c, 0x5c, 0x5c, 0x5c];
    assert s[44..48] == [0x5c, 0x5c, 0x5c, 0x5c];
    assert s[48..52] == [0x5c, 0x5c, 0x5c, 0x5c];
    assert s[52..56] == [0x5c, 0x5c, 0x5c, 0x5c];
    assert s[56..60] == [0x5c, 0x5c, 0x5c, 0x5c];
    assert s[60..64] == [0x5c, 0x5c, 0x5c, 0x5c];
    OuterAre();
    hide Outer;
  }

  lemma OuterInWords()
    ensures Word([0x57, 0x57, 0x57, 0x57]) == 0x5757_5757
    ensures Word([0x5c, 0x5c, 0x5c, 0x5c]) == 0x5c5c_5c5c
  {}

  lemma OuterStepsTo8()
    ensures Steps(IV, OuterWords(), 8) == Regs4(0x3ef5_c5ae, 0x5b21_b141, 0x1e41_d23b, 0x019a_f47d)
  {
    hide Steps, OuterWords, WordIndex, Shift, T;
    OuterAre();
    TablesFrom0();
    NoSteps(IV, OuterWords());
    var b1 := StepAt(IV, OuterWords(), 0, F(0xefcd_ab89, 0x98ba_dcfe, 0x1032_5476), 0x5757_5757, 7, 0xd76a_a478,
      0x6745_2301, 0xefcd_ab89, 0x98ba_dcfe, 0x1032_5476);
    var b2 := StepAt(IV, OuterWords(), 1, F(b1, 0xefcd_ab89, 0x98ba_dcfe), 0x5757_5757, 12, 0xe8c7_b756,
      0x1032_5476, b1, 0xefcd_ab89, 0x98ba_dcfe);
    var b3 := StepAt(IV, OuterWords(), 2, F(b2, b1, 0xefcd_ab89), 0x5757_5757, 17, 0x2420_70db, 0x98ba_dcfe, b2,
      b1, 0xefcd_ab89);
    var b4 := StepAt(IV, OuterWords(), 3, F(b3, b2, b1), 0x5757_5757, 22, 0xc1bd_ceee, 0xefcd_ab89, b3, b2, b1);
    var b5 := StepAt(IV, OuterWords(), 4, F(b4, b3, b2), 0x5c5c_5c5c, 7, 0xf57c_0faf, b1, b4, b3, b2);
    var b6 := StepAt(IV, OuterWords(), 5, F(b5, b4, b3), 0x5c5c_5c5c, 12, 0x4787_c62a, b2, b5, b4, b3);
    var b7 := StepAt(IV, OuterWords(), 6, F(b6, b5, b4), 0x5c5c_5c5c, 17, 0xa830_4613, b3, b6, b5, b4);
    var b8 := StepAt(IV, OuterWords(), 7, F(b7, b6, b5), 0x5c5c_5c5c, 22, 0xfd46_9501, b4, b7, b6, b5);
  }

  lemma OuterStepsTo16()
    ensures Steps(IV, OuterWords(), 16) == Regs4(0x1b3f_ef57, 0x3dd2_24f4, 0x2a28_c176, 0xd68b_3cb9)
  {
    hide Steps, OuterWords, WordIndex, Shift, T;
    OuterAre();
    TablesFrom8();
    OuterStepsTo8();
    var b9 := StepAt(IV, OuterWords(), 8, F(0x5b21_b141, 0x1e41_d23b, 0x019a_f47d), 0x5c5c_5c5c, 7, 0x6980_98d8,
      0x3ef5_c5ae, 0x5b21_b141, 0x1e41_d23b, 0x019a_f47d);
    var b10 := StepAt(IV, OuterWords(), 9, F(b9, 0x5b21_b141, 0x1e41_d23b), 0x5c5c_5c5c, 12, 0x8b44_f7af,
      0x019a_f47d, b9, 0x5b21_b141, 0x1e41_d23b);
    var b11 := StepAt(IV, OuterWords(), 10, F(b10, b9, 0x5b21_b141), 0x5c5c_5c5c, 17, 0xffff_5bb1, 0x1e41_d23b,
      b10, b9, 0x5b21_b141);
    var b12 := StepAt(IV, OuterWords(), 11, F(b11, b10, b9), 0x5c5c_5c5c, 22, 0x895c_d7be, 0x5b21_b141, b11, b10, b9);
    var b13 := StepAt(IV, OuterWords(), 12, F(b12, b11, b10), 0x5c5c_5c5c, 7, 0x6b90_1122, b9, b12, b11, b10);
    var b14 := StepAt(IV, OuterWords(), 13, F(b13, b12, b11), 0x5c5c_5c5c, 12, 0xfd98_7193, b10, b13, b12, b11);
    var b15 := StepAt(IV, OuterWords(), 14, F(b14, b13, b12), 0x5c5c_5c5c, 17, 0xa679_438e, b11, b14, b13, b12);
    var b16 := StepAt(IV, OuterWords(), 15, F(b15, b14, b13), 0x5c5c_5c5c, 22, 0x49b4_0821, b12, b15, b14, b13);
  }

  lemma OuterStepsTo24()
    ensures Steps(IV, OuterWords(), 24) == Regs4(0x216f_6959, 0x95d5_c1d9, 0x43ad_ab74, 0xfa44_ce36)
  {
    hide Steps, OuterWords, WordIndex, Shift, T;
    OuterAre();
    TablesFrom16();
    OuterStepsTo16();
    var b17 := StepAt(IV, OuterWords(), 16, G(0x3dd2_24f4, 0x2a28_c176, 0xd68b_3cb9), 0x5757_5757, 5, 0xf61e_2562,
      0x1b3f_ef57, 0x3dd2_24f4, 0x2a28_c176, 0xd68b_3cb9);
    var b18 := StepAt(IV, OuterWords(), 17, G(b17, 0x3dd2_24f4, 0x2a28_c176), 0x5c5c_5c5c, 9, 0xc040_b340,
      0xd68b_3cb9, b17, 0x3dd2_24f4, 0x2a28_c176);
    var b19 := StepAt(IV, OuterWords(), 18, G(b18, b17, 0x3dd2_24f4), 0x5c5c_5c5c, 14, 0x265e_5a51, 0x2a28_c176,
      b18, b17, 0x3dd2_24f4);
    var b20 := StepAt(IV, OuterWords(), 19, G(b19, b18, b17), 0x5757_5757, 20, 0xe9b6_c7aa, 0x3dd2_24f4, b19, b18,
      b17);
    var b21 := StepAt(IV, OuterWords(), 20, G(b20, b19, b18), 0x5c5c_5c5c, 5, 0xd62f_105d, b17, b20, b19, b18);
    var b22 := StepAt(IV, OuterWords(), 21, G(b21, b20, b19), 0x5c5c_5c5c, 9, 0x0244_1453, b18, b21, b20, b19);
    var b23 := StepAt(IV, OuterWords(), 22, G(b22, b21, b20), 0x5c5c_5c5c, 14, 0xd8a1_e681, b19, b22, b21, b20);
    var b24 := StepAt(IV, OuterWords(), 23, G(b23, b22, b21), 0x5c5c_5c5c, 20, 0xe7d3_fbc8, b20, b23, b22, b21);
  }

  lemma OuterStepsTo32()
    ensures Steps(IV, OuterWords(), 32) == Regs4(0xcfb1_1483, 0xcf15_5612, 0x6af0_eb14, 0xc532_132c)
  {
    hide Steps, OuterWords, WordIndex, Shift, T;
    OuterAre();
    TablesFrom24();
    OuterStepsTo24();
    var b25 := StepAt(IV, OuterWords(), 24, G(0x95d5_c1d9, 0x43ad_ab74, 0xfa44_ce36), 0x5c5c_5c5c, 5, 0x21e1_cde6,
      0x216f_6959, 0x95d5_c1d9, 0x43ad_ab74, 0xfa44_ce36);
    var b26 := StepAt(IV, OuterWords(), 25, G(b25, 0x95d5_c1d9, 0x43ad_ab74), 0x5c5c_5c5c, 9, 0xc337_07d6,
      0xfa44_ce36, b25, 0x95d5_c1d9, 0x43ad_ab74);
    var b27 := StepAt(IV, OuterWords(), 26, G(b26, b25, 0x95d5_c1d9), 0x5757_5757, 14, 0xf4d5_0d87, 0x43ad_ab74,
      b26, b25, 0x95d5_c1d9);
    var b28 := StepAt(IV, OuterWords(), 27, G(b27, b26, b25), 0x5c5c_5c5c, 20, 0x455a_14ed, 0x95d5_c1d9, b27, b26,
      b25);
    var b29 := StepAt(IV, OuterWords(), 28, G(b28, b27, b26), 0x5c5c_5c5c, 5, 0xa9e3_e905, b25, b28, b27, b26);
    var b30 := StepAt(IV, OuterWords(), 29, G(b29, b28, b27), 0x5757_5757, 9, 0xfcef_a3f8, b26, b29, b28, b27);
    var b31 := StepAt(IV, OuterWords(), 30, G(b30, b29, b28), 0x5c5c_5c5c, 14, 0x676f_02d9, b27, b30, b29, b28);
    var b32 := StepAt(IV, OuterWords(), 31, G(b31, b30, b29), 0x5c5c_5c5c, 20, 0x8d2a_4c8a, b28, b31, b30, b29);
  }

  lemma OuterStepsTo40()
    ensures Steps(IV, OuterWords(), 40) == Regs4(0x493a_6ccb, 0x7bce_c277, 0x4183_fe12, 0xdf9a_ac04)
  {
    hide Steps, OuterWords, WordIndex, Shift, T;
    OuterAre();
    TablesFrom32();
    OuterStepsTo32();
    var b33 := StepAt(IV, OuterWords(), 32, H(0xcf15_5612, 0x6af0_eb14, 0xc532_132c), 0x5c5c_5c5c, 4, 0xfffa_3942,
      0xcfb1_1483, 0xcf15_5612, 0x6af0_eb14, 0xc532_132c);
    var b34 := StepAt(IV, OuterWords(), 33, H(b33, 0xcf15_5612, 0x6af0_eb14), 0x5c5c_5c5c, 11, 0x8771_f681,
      0xc532_132c, b33, 0xcf15_5612, 0x6af0_eb14);
    var b35 := StepAt(IV, OuterWords(), 34, H(b34, b33, 0xcf15_5612), 0x5c5c_5c5c, 16, 0x6d9d_6122, 0x6af0_eb14,
      b34, b33, 0xcf15_5612);
    var b36 := StepAt(IV, OuterWords(), 35, H(b35, b34, b33), 0x5c5c_5c5c, 23, 0xfde5_380c, 0xcf15_5612, b35, b34,
      b33);
    var b37 := StepAt(IV, OuterWords(), 36, H(b36, b35, b34), 0x5757_5757, 4, 0xa4be_ea44, b33, b36, b35, b34);
    var b38 := StepAt(IV, OuterWords(), 37, H(b37, b36, b35), 0x5c5c_5c5c, 11, 0x4bde_cfa9, b34, b37, b36, b35);
    var b39 := StepAt(IV, OuterWords(), 38, H(b38, b37, b36), 0x5c5c_5c5c, 16, 0xf6bb_4b60, b35, b38, b37, b36);
    var b40 := StepAt(IV, OuterWords(), 39, H(b39, b38, b37), 0x5c5c_5c5c, 23, 0xbebf_bc70, b36, b39, b38, b37);
  }

  lemma OuterStepsTo48()
    ensures Steps(IV, OuterWords(), 48) == Regs4(0xfe49_51f6, 0x7348_0746, 0x4f28_5a8c, 0x4848_b148)
  {
    hide Steps, OuterWords, WordIndex, Shift, T;
    OuterAre();
    TablesFrom40();
    OuterStepsTo40();
    var b41 := StepAt(IV, OuterWords(), 40, H(0x7bce_c277, 0x4183_fe12, 0xdf9a_ac04), 0x5c5c_5c5c, 4, 0x289b_7ec6,
      0x493a_6ccb, 0x7bce_c277, 0x4183_fe12, 0xdf9a_ac04);
    var b42 := StepAt(IV, OuterWords(), 41, H(b41, 0x7bce_c277, 0x4183_fe12), 0x5757_5757, 11, 0xeaa1_27fa,
      0xdf9a_ac04, b41, 0x7bce_c277, 0x4183_fe12);
    var b43 := StepAt(IV, OuterWords(), 42, H(b42, b41, 0x7bce_c277), 0x5757_5757, 16, 0xd4ef_3085, 0x4183_fe12,
      b42, b41, 0x7bce_c277);
    var b44 := StepAt(IV, OuterWords(), 43, H(b43, b42, b41), 0x5c5c_5c5c, 23, 0x0488_1d05, 0x7bce_c277, b43, b42,
      b41);
    var b45 := StepAt(IV, OuterWords(), 44, H(b44, b43, b42), 0x5c5c_5c5c, 4, 0xd9d4_d039, b41, b44, b43, b42);
    var b46 := StepAt(IV, OuterWords(), 45, H(b45, b44, b43), 0x5c5c_5c5c, 11, 0xe6db_99e5, b42, b45, b44, b43);
    var b47 := StepAt(IV, OuterWords(), 46, H(b46, b45, b44), 0x5c5c_5c5c, 16, 0x1fa2_7cf8, b43, b46, b45, b44);
    var b48 := StepAt(IV, OuterWords(), 47, H(b47, b46, b45), 0x5757_5757, 23, 0xc4ac_5665, b44, b47, b46, b45);
  }

  lemma OuterStepsTo56()
    ensures Steps(IV, OuterWords(), 56) == Regs4(0xe55e_ec84, 0x7f3b_9a87, 0xd95f_994c, 0xdfcd_3b90)
  {
    hide Steps, OuterWords, WordIndex, Shift, T;
    OuterAre();
    TablesFrom48();
    OuterStepsTo48();
    var b49 := StepAt(IV, OuterWords(), 48, I(0x7348_0746, 0x4f28_5a8c, 0x4848_b148), 0x5757_5757, 6, 0xf429_2244,
      0xfe49_51f6, 0x7348_0746, 0x4f28_5a8c, 0x4848_b148);
    var b50 := StepAt(IV, OuterWords(), 49, I(b49, 0x7348_0746, 0x4f28_5a8c), 0x5c5c_5c5c, 10, 0x432a_ff97,
      0x4848_b148, b49, 0x7348_0746, 0x4f28_5a8c);
    var b51 := StepAt(IV, OuterWords(), 50, I(b50, b49, 0x7348_0746), 0x5c5c_5c5c, 15, 0xab94_23a7, 0x4f28_5a8c,
      b50, b49, 0x7348_0746);
    var b52 := StepAt(IV, OuterWords(), 51, I(b51, b50, b49), 0x5c5c_5c5c, 21, 0xfc93_a039, 0x7348_0746, b51, b50,
      b49);
    var b53 := StepAt(IV, OuterWords(), 52, I(b52, b51, b50), 0x5c5c_5c5c, 6, 0x655b_59c3, b49, b52, b51, b50);
    var b54 := StepAt(IV, OuterWords(), 53, I(b53, b52, b51), 0x5757_5757, 10, 0x8f0c_cc92, b50, b53, b52, b51);
    var b55 := StepAt(IV, OuterWords(), 54, I(b54, b53, b52), 0x5c5c_5c5c, 15, 0xffef_f47d, b51, b54, b53, b52);
    var b56 := StepAt(IV, OuterWords(), 55, I(b55, b54, b53), 0x5757_5757, 21, 0x8584_5dd1, b52, b55, b54, b53);
  }

  lemma OuterStepsTo64()
    ensures Steps(IV, OuterWords(), 64) == Regs4(0x70e6_19f4, 0x36dd_e5b9, 0x4ef2_0057, 0x34e0_b365)
  {
    hide Steps, OuterWords, WordIndex, Shift, T;
    OuterAre();
    TablesFrom56();
    OuterStepsTo56();
    var b57 := StepAt(IV, OuterWords(), 56, I(0x7f3b_9a87, 0xd95f_994c, 0xdfcd_3b90), 0x5c5c_5c5c, 6, 0x6fa8_7e4f,
      0xe55e_ec84, 0x7f3b_9a87, 0xd95f_994c, 0xdfcd_3b90);
    var b58 := StepAt(IV, OuterWords(), 57, I(b57, 0x7f3b_9a87, 0xd95f_994c), 0x5c5c_5c5c, 10, 0xfe2c_e6e0,
      0xdfcd_3b90, b57, 0x7f3b_9a87, 0xd95f_994c);
    var b59 := StepAt(IV, OuterWords(), 58, I(b58, b57, 0x7f3b_9a87), 0x5c5c_5c5c, 15, 0xa301_4314, 0xd95f_994c,
      b58, b57, 0x7f3b_9a87);
    var b60 := StepAt(IV, OuterWords(), 59, I(b59, b58, b57), 0x5c5c_5c5c, 21, 0x4e08_11a1, 0x7f3b_9a87, b59, b58,
      b57);
    var b61 := StepAt(IV, OuterWords(), 60, I(b60, b59, b58), 0x5c5c_5c5c, 6, 0xf753_7e82, b57, b60, b59, b58);
    var b62 := StepAt(IV, OuterWords(), 61, I(b61, b60, b59), 0x5c5c_5c5c, 10, 0xbd3a_f235, b58, b61, b60, b59);
    var b63 := StepAt(IV, OuterWords(), 62, I(b62, b61, b60), 0x5757_5757, 15, 0x2ad7_d2bb, b59, b62, b61, b60);
    var b64 := StepAt(IV, OuterWords(), 63, I(b63, b62, b61), 0x5c5c_5c5c, 21, 0xeb86_d391, b60, b63, b62, b61);
  }

  lemma OuterCompressed()
    ensures Compress(IV, Outer()) == Regs4(0xd82b_3cf5, 0x26ab_9142, 0xe7ac_dd55, 0x4513_07db)
  {
    hide Steps, Words, OuterWords;
    OuterIsWords();
    OuterStepsTo64();
  }

  // ----- the inner digest, behind the outer pad

  function Mac(): (s: seq<bv8>)
    ensures |s| == 64
  {
    InnerDigest() + [0x80] + Zeros(39) + [0x80, 0x02] + Zeros(6)
  }

  function MacWords(): (x: seq<bv32>)
    ensures |x| == 16
  {
    [0x7323_1d90, 0xf1c0_dc2e, 0x2f53_06a1, 0xebec_e56b, 128, 0, 0, 0, 0, 0, 0, 0, 0, 0, 640, 0]
  }

  lemma MacAre()
    ensures MacWords()[0] == 0x7323_1d90 && MacWords()[1] == 0xf1c0_dc2e && MacWords()[2] == 0x2f53_06a1
    ensures MacWords()[3] == 0xebec_e56b && MacWords()[4] == 128 && MacWords()[5] == 0 && MacWords()[6] == 0
    ensures MacWords()[7] == 0 && MacWords()[8] == 0 && MacWords()[9] == 0 && MacWords()[10] == 0
    ensures MacWords()[11] == 0 && MacWords()[12] == 0 && MacWords()[13] == 0 && MacWords()[14] == 640
    ensures MacWords()[15] == 0
  {}

  lemma MacIsWords()
    ensures Words(Mac()) == MacWords()
  {
    hide Word;
    MacInWords();
    var s := Mac();
    assert s[0..4] == [0x90, 0x1d, 0x23, 0x73];
    assert s[4..8] == [0x2e, 0xdc, 0xc0, 0xf1];
    assert s[8..12] == [0xa1, 0x06, 0x53, 0x2f];
    assert s[12..16] == [0x6b, 0xe5, 0xec, 0xeb];
    assert s[16..20] == [0x80, 0x00, 0x00, 0x00];
    assert s[20..24] == [0x00, 0x00, 0x00, 0x00];
    assert s[24..28] == [0x00, 0x00, 0x00, 0x00];
    assert s[28..32] == [0x00, 0x00, 0x00, 0x00];
    assert s[32..36] == [0x00, 0x00, 0x00, 0x00];
    assert s[36..40] == [0x00, 0x00, 0x00, 0x00];
    assert s[40..44] == [0x00, 0x00, 0x00, 0x00];
    assert s[44..48] == [0x00, 0x00, 0x00, 0x00];
    assert s[48..52] == [0x00, 0x00, 0x00, 0x00];
    assert s[52..56] == [0x00, 0x00, 0x00, 0x00];
    assert s[56..60] == [0x80, 0x02, 0x00, 0x00];
    assert s[60..64] == [0x00, 0x00, 0x00, 0x00];
    MacAre();
    hide Mac;
  }

  lemma MacInWords()
    ensures Word([0x90, 0x1d, 0x23, 0x73]) == 0x7323_1d90
    ensures Word([0x2e, 0xdc, 0xc0, 0xf1]) == 0xf1c0_dc2e
    ensures Word([0xa1, 0x06, 0x53, 0x2f]) == 0x2f53_06a1
    ensures Word([0x6b, 0xe5, 0xec, 0xeb]) == 0xebec_e56b
    ensures Word([0x80, 0x00, 0x00, 0x00]) == 128
    ensures Word([0x00, 0x00, 0x00, 0x00]) == 0
    ensures Word([0x80, 0x02, 0x00, 0x00]) == 640
  {}

  lemma MacStepsTo8()
    ensures Steps(OuterState, MacWords(), 8) == Regs4(0x02c3_f84e, 0x0dce_ce7b, 0x2c3b_e62e, 0x3589_52d5)
  {
    hide Steps, MacWords, WordIndex, Shift, T;
    MacAre();
    TablesFrom0();
    NoSteps(OuterState, MacWords());
    var b1 := StepAt(OuterState, MacWords(), 0, F(0x26ab_9142, 0xe7ac_dd55, 0x4513_07db), 0x7323_1d90, 7,
      0xd76a_a478, 0xd82b_3cf5, 0x26ab_9142, 0xe7ac_dd55, 0x4513_07db);
    var b2 := StepAt(OuterState, MacWords(), 1, F(b1, 0x26ab_9142, 0xe7ac_dd55), 0xf1c0_dc2e, 12, 0xe8c7_b756,
      0x4513_07db, b1, 0x26ab_9142, 0xe7ac_dd55);
    var b3 := StepAt(OuterState, MacWords(), 2, F(b2, b1, 0x26ab_9142), 0x2f53_06a1, 17, 0x2420_70db, 0xe7ac_dd55,
      b2, b1, 0x26ab_9142);
    var b4 := StepAt(OuterState, MacWords(), 3, F(b3, b2, b1), 0xebec_e56b, 22, 0xc1bd_ceee, 0x26ab_9142, b3, b2, b1);
    var b5 := StepAt(OuterState, MacWords(), 4, F(b4, b3, b2), 128, 7, 0xf57c_0faf, b1, b4, b3, b2);
    var b6 := StepAt(OuterState, MacWords(), 5, F(b5, b4, b3), 0, 12, 0x4787_c62a, b2, b5, b4, b3);
    var b7 := StepAt(OuterState, MacWords(), 6, F(b6, b5, b4), 0, 17, 0xa830_4613, b3, b6, b5, b4);
    var b8 := StepAt(OuterState, MacWords(), 7, F(b7, b6, b5), 0, 22, 0xfd46_9501, b4, b7, b6, b5);
  }

  lemma MacStepsTo16()
    ensures Steps(OuterState, MacWords(), 16) == Regs4(0xb0c7_1a01, 0xbf5b_05dd, 0x3cd8_baa0, 0xe845_5c66)
  {
    hide Steps, MacWords, WordIndex, Shift, T;
    MacAre();
    TablesFrom8();
    MacStepsTo8();
    var b9 := StepAt(OuterState, MacWords(), 8, F(0x0dce_ce7b, 0x2c3b_e62e, 0x3589_52d5), 0, 7, 0x6980_98d8,
      0x02c3_f84e, 0x0dce_ce7b, 0x2c3b_e62e, 0x3589_52d5);
    var b10 := StepAt(OuterState, MacWords(), 9, F(b9, 0x0dce_ce7b, 0x2c3b_e62e), 0, 12, 0x8b44_f7af, 0x3589_52d5,
      b9, 0x0dce_ce7b, 0x2c3b_e62e);
    var b11 := StepAt(OuterState, MacWords(), 10, F(b10, b9, 0x0dce_ce7b), 0, 17, 0xffff_5bb1, 0x2c3b_e62e, b10,
      b9, 0x0dce_ce7b);
    var b12 := StepAt(OuterState, MacWords(), 11, F(b11, b10, b9), 0, 22, 0x895c_d7be, 0x0dce_ce7b, b11, b10, b9);
    var b13 := StepAt(OuterState, MacWords(), 12, F(b12, b11, b10), 0, 7, 0x6b90_1122, b9, b12, b11, b10);
    var b14 := StepAt(OuterState, MacWords(), 13, F(b13, b12, b11), 0, 12, 0xfd98_7193, b10, b13, b12, b11);
    var b15 := StepAt(OuterState, MacWords(), 14, F(b14, b13, b12), 640, 17, 0xa679_438e, b11, b14, b13, b12);
    var b16 := StepAt(OuterState, MacWords(), 15, F(b15, b14, b13), 0, 22, 0x49b4_0821, b12, b15, b14, b13);
  }

  lemma MacStepsTo24()
    ensures Steps(OuterState, MacWords(), 24) == Regs4(0xe810_7c75, 0x517e_b3b5, 0x785e_3fe5, 0xdea0_388d)
  {
    hide Steps, MacWords, WordIndex, Shift, T;
    MacAre();
    TablesFrom16();
    MacStepsTo16();
    var b17 := StepAt(OuterState, MacWords(), 16, G(0xbf5b_05dd, 0x3cd8_baa0, 0xe845_5c66), 0xf1c0_dc2e, 5,
      0xf61e_2562, 0xb0c7_1a01, 0xbf5b_05dd, 0x3cd8_baa0, 0xe845_5c66);
    var b18 := StepAt(OuterState, MacWords(), 17, G(b17, 0xbf5b_05dd, 0x3cd8_baa0), 0, 9, 0xc040_b340, 0xe845_5c66,
      b17, 0xbf5b_05dd, 0x3cd8_baa0);
    var b19 := StepAt(OuterState, MacWords(), 18, G(b18, b17, 0xbf5b_05dd), 0, 14, 0x265e_5a51, 0x3cd8_baa0, b18,
      b17, 0xbf5b_05dd);
    var b20 := StepAt(OuterState, MacWords(), 19, G(b19, b18, b17), 0x7323_1d90, 20, 0xe9b6_c7aa, 0xbf5b_05dd, b19,
      b18, b17);
    var b21 := StepAt(OuterState, MacWords(), 20, G(b20, b19, b18), 0, 5, 0xd62f_105d, b17, b20, b19, b18);
    var b22 := StepAt(OuterState, MacWords(), 21, G(b21, b20, b19), 0, 9, 0x0244_1453, b18, b21, b20, b19);
    var b23 := StepAt(OuterState, MacWords(), 22, G(b22, b21, b20), 0, 14, 0xd8a1_e681, b19, b22, b21, b20);
    var b24 := StepAt(OuterState, MacWords(), 23, G(b23, b22, b21), 128, 20, 0xe7d3_fbc8, b20, b23, b22, b21);
  }

  lemma MacStepsTo32()
    ensures Steps(OuterState, MacWords(), 32) == Regs4(0xc5c0_87ee, 0xe029_d820, 0x21e7_9382, 0xa5fc_1b67)
  {
    hide Steps, MacWords, WordIndex, Shift, T;
    MacAre();
    TablesFrom24();
    MacStepsTo24();
    var b25 := StepAt(OuterState, MacWords(), 24, G(0x517e_b3b5, 0x785e_3fe5, 0xdea0_388d), 0, 5, 0x21e1_cde6,
      0xe810_7c75, 0x517e_b3b5, 0x785e_3fe5, 0xdea0_388d);
    var b26 := StepAt(OuterState, MacWords(), 25, G(b25, 0x517e_b3b5, 0x785e_3fe5), 640, 9, 0xc337_07d6,
      0xdea0_388d, b25, 0x517e_b3b5, 0x785e_3fe5);
    var b27 := StepAt(OuterState, MacWords(), 26, G(b26, b25, 0x517e_b3b5), 0xebec_e56b, 14, 0xf4d5_0d87,
      0x785e_3fe5, b26, b25, 0x517e_b3b5);
    var b28 := StepAt(OuterState, MacWords(), 27, G(b27, b26, b25), 0, 20, 0x455a_14ed, 0x517e_b3b5, b27, b26, b25);
    var b29 := StepAt(OuterState, MacWords(), 28, G(b28, b27, b26), 0, 5, 0xa9e3_e905, b25, b28, b27, b26);
    var b30 := StepAt(OuterState, MacWords(), 29, G(b29, b28, b27), 0x2f53_06a1, 9, 0xfcef_a3f8, b26, b29, b28, b27);
    var b31 := StepAt(OuterState, MacWords(), 30, G(b30, b29, b28), 0, 14, 0x676f_02d9, b27, b30, b29, b28);
    var b32 := StepAt(OuterState, MacWords(), 31, G(b31, b30, b29), 0, 20, 0x8d2a_4c8a, b28, b31, b30, b29);
  }

  lemma MacStepsTo40()
    ensures Steps(OuterState, MacWords(), 40) == Regs4(0x1566_3352, 0x12bb_92f7, 0x6385_24e0, 0x79f8_1eec)
  {
    hide Steps, MacWords, WordIndex, Shift, T;
    MacAre();
    TablesFrom32();
    MacStepsTo32();
    var b33 := StepAt(OuterState, MacWords(), 32, H(0xe029_d820, 0x21e7_9382, 0xa5fc_1b67), 0, 4, 0xfffa_3942,
      0xc5c0_87ee, 0xe029_d820, 0x21e7_9382, 0xa5fc_1b67);
    var b34 := StepAt(OuterState, MacWords(), 33, H(b33, 0xe029_d820, 0x21e7_9382), 0, 11, 0x8771_f681,
      0xa5fc_1b67, b33, 0xe029_d820, 0x21e7_9382);
    var b35 := StepAt(OuterState, MacWords(), 34, H(b34, b33, 0xe029_d820), 0, 16, 0x6d9d_6122, 0x21e7_9382, b34,
      b33, 0xe029_d820);
    var b36 := StepAt(OuterState, MacWords(), 35, H(b35, b34, b33), 640, 23, 0xfde5_380c, 0xe029_d820, b35, b34, b33);
    var b37 := StepAt(OuterState, MacWords(), 36, H(b36, b35, b34), 0xf1c0_dc2e, 4, 0xa4be_ea44, b33, b36, b35, b34);
    var b38 := StepAt(OuterState, MacWords(), 37, H(b37, b36, b35), 128, 11, 0x4bde_cfa9, b34, b37, b36, b35);
    var b39 := StepAt(OuterState, MacWords(), 38, H(b38, b37, b36), 0, 16, 0xf6bb_4b60, b35, b38, b37, b36);
    var b40 := StepAt(OuterState, MacWords(), 39, H(b39, b38, b37), 0, 23, 0xbebf_bc70, b36, b39, b38, b37);
  }

  lemma MacStepsTo48()
    ensures Steps(OuterState, MacWords(), 48) == Regs4(0x5add_c40d, 0xa718_9822, 0xde86_00a0, 0xadd9_460d)
  {
    hide Steps, MacWords, WordIndex, Shift, T;
    MacAre();
    TablesFrom40();
    MacStepsTo40();
    var b41 := StepAt(OuterState, MacWords(), 40, H(0x12bb_92f7, 0x6385_24e0, 0x79f8_1eec), 0, 4, 0x289b_7ec6,
      0x1566_3352, 0x12bb_92f7, 0x6385_24e0, 0x79f8_1eec);
    var b42 := StepAt(OuterState, MacWords(), 41, H(b41, 0x12bb_92f7, 0x6385_24e0), 0x7323_1d90, 11, 0xeaa1_27fa,
      0x79f8_1eec, b41, 0x12bb_92f7, 0x6385_24e0);
    var b43 := StepAt(OuterState, MacWords(), 42, H(b42, b41, 0x12bb_92f7), 0xebec_e56b, 16, 0xd4ef_3085,
      0x6385_24e0, b42, b41, 0x12bb_92f7);
    var b44 := StepAt(OuterState, MacWords(), 43, H(b43, b42, b41), 0, 23, 0x0488_1d05, 0x12bb_92f7, b43, b42, b41);
    var b45 := StepAt(OuterState, MacWords(), 44, H(b44, b43, b42), 0, 4, 0xd9d4_d039, b41, b44, b43, b42);
    var b46 := StepAt(OuterState, MacWords(), 45, H(b45, b44, b43), 0, 11, 0xe6db_99e5, b42, b45, b44, b43);
    var b47 := StepAt(OuterState, MacWords(), 46, H(b46, b45, b44), 0, 16, 0x1fa2_7cf8, b43, b46, b45, b44);
    var b48 := StepAt(OuterState, MacWords(), 47, H(b47, b46, b45), 0x2f53_06a1, 23, 0xc4ac_5665, b44, b47, b46, b45);
  }

  lemma MacStepsTo56()
    ensures Steps(OuterState, MacWords(), 56) == Regs4(0xab89_317b, 0x3f7b_3bda, 0x0e45_e7b7, 0xd547_55ef)
  {
    hide Steps, MacWords, WordIndex, Shift, T;
    MacAre();
    TablesFrom48();
    MacStepsTo48();
    var b49 := StepAt(OuterState, MacWords(), 48, I(0xa718_9822, 0xde86_00a0, 0xadd9_460d), 0x7323_1d90, 6,
      0xf429_2244, 0x5add_c40d, 0xa718_9822, 0xde86_00a0, 0xadd9_460d);
    var b50 := StepAt(OuterState, MacWords(), 49, I(b49, 0xa718_9822, 0xde86_00a0), 0, 10, 0x432a_ff97,
      0xadd9_460d, b49, 0xa718_9822, 0xde86_00a0);
    var b51 := StepAt(OuterState, MacWords(), 50, I(b50, b49, 0xa718_9822), 640, 15, 0xab94_23a7, 0xde86_00a0, b50,
      b49, 0xa718_9822);
    var b52 := StepAt(OuterState, MacWords(), 51, I(b51, b50, b49), 0, 21, 0xfc93_a039, 0xa718_9822, b51, b50, b49);
    var b53 := StepAt(OuterState, MacWords(), 52, I(b52, b51, b50), 0, 6, 0x655b_59c3, b49, b52, b51, b50);
    var b54 := StepAt(OuterState, MacWords(), 53, I(b53, b52, b51), 0xebec_e56b, 10, 0x8f0c_cc92, b50, b53, b52, b51);
    var b55 := StepAt(OuterState, MacWords(), 54, I(b54, b53, b52), 0, 15, 0xffef_f47d, b51, b54, b53, b52);
    var b56 := StepAt(OuterState, MacWords(), 55, I(b55, b54, b53), 0xf1c0_dc2e, 21, 0x8584_5dd1, b52, b55, b54, b53);
  }

  lemma MacStepsTo64()
    ensures Steps(OuterState, MacWords(), 64) == Regs4(0xa247_579d, 0xf60f_a6f4, 0x10e2_16be, 0x58e9_833a)
  {
    hide Steps, MacWords, WordIndex, Shift, T;
    MacAre();
    TablesFrom56();
    MacStepsTo56();
    var b57 := StepAt(OuterState, MacWords(), 56, I(0x3f7b_3bda, 0x0e45_e7b7, 0xd547_55ef), 0, 6, 0x6fa8_7e4f,
      0xab89_317b, 0x3f7b_3bda, 0x0e45_e7b7, 0xd547_55ef);
    var b58 := StepAt(OuterState, MacWords(), 57, I(b57, 0x3f7b_3bda, 0x0e45_e7b7), 0, 10, 0xfe2c_e6e0,
      0xd547_55ef, b57, 0x3f7b_3bda, 0x0e45_e7b7);
    var b59 := StepAt(OuterState, MacWords(), 58, I(b58, b57, 0x3f7b_3bda), 0, 15, 0xa301_4314, 0x0e45_e7b7, b58,
      b57, 0x3f7b_3bda);
    var b60 := StepAt(OuterState, MacWords(), 59, I(b59, b58, b57), 0, 21, 0x4e08_11a1, 0x3f7b_3bda, b59, b58, b57);
    var b61 := StepAt(OuterState, MacWords(), 60, I(b60, b59, b58), 128, 6, 0xf753_7e82, b57, b60, b59, b58);
    var b62 := StepAt(OuterState, MacWords(), 61, I(b61, b60, b59), 0, 10, 0xbd3a_f235, b58, b61, b60, b59);
    var b63 := StepAt(OuterState, MacWords(), 62, I(b62, b61, b60), 0x2f53_06a1, 15, 0x2ad7_d2bb, b59, b62, b61, b60);
    var b64 := StepAt(OuterState, MacWords(), 63, I(b63, b62, b61), 0, 21, 0xeb86_d391, b60, b63, b62, b61);
  }

  lemma MacCompressed()
    ensures Compress(OuterState, Mac()) == Regs4(0x7a72_9492, 0x1cbb_3836, 0xf88e_f413, 0x9dfc_8b15)
  {
    hide Steps, Words, MacWords;
    MacIsWords();
    MacStepsTo64();
  }

  lemma MacPadded()
    ensures Padded(64, Outer() + InnerDigest(), LengthField(80)) == Outer() + Mac()
  {
    hide Outer, InnerDigest, LengthField;
    FieldOf(80, 0x80, 0x02);
    PadZerosByRest(64, 8, 80);
  }

  lemma OuterPass()
    ensures Digest(Outer() + InnerDigest())
         == [0x92, 0x94, 0x72, 0x7a] + [0x36, 0x38, 0xbb, 0x1c] + [0x13, 0xf4, 0x8e, 0xf8] + [0x15, 0x8b, 0xfc, 0x9d]
  {
    hide Padded, LengthField, WordBytes, RegBytes, Compress, Outer, Mac, State;
    MacPadded();
    OuterCompressed();
    MacCompressed();
    TwoBlocks(Outer(), Mac());
    MacBytes();
    BytesOf4(State(Outer() + Mac()));
  }

  lemma MacBytes()
    ensures WordBytes(0x7a72_9492) == [0x92, 0x94, 0x72, 0x7a]
    ensures WordBytes(0x1cbb_3836) == [0x36, 0x38, 0xbb, 0x1c]
    ensures WordBytes(0xf88e_f413) == [0x13, 0xf4, 0x8e, 0xf8]
    ensures WordBytes(0x9dfc_8b15) == [0x15, 0x8b, 0xfc, 0x9d]
  {}

  /** The code that the RFC gives for a key of sixteen bytes 0x0b and the text "Hi There". */
  lemma HmacOfHiThere()
    ensures HmacMd5(Same(0x0b, 16), HiThere())
         == [0x92, 0x94, 0x72, 0x7a] + [0x36, 0x38, 0xbb, 0x1c] + [0x13, 0xf4, 0x8e, 0xf8] + [0x15, 0x8b, 0xfc, 0x9d]
  {
    hide Digest, BlockKey, XorAll, InnerDigest;
    KeyUnder(0x36);
    KeyUnder(0x5c);
    PadBytes();
    InnerPass();
    OuterPass();
  }

  lemma PadBytes()
    ensures 0x0b ^ 0x36 == 0x3d as bv8 && 0x0b ^ 0x5c == 0x57 as bv8
  {}
}
