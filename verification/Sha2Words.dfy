/**
  The two word sizes of sha2.c: logical functions, constants, initial values, and the
  byte order of a little-endian host.
 */
module Sha2Words {
  import opened Sha2Spec
  import opened Sha2Transform

  // ----- 32-bit words (SHA-256)

  // the macro S32, for the amounts it is used with

  function Rotr32By2(x: bv32): bv32 { (x >> 2) | (x << 30) }
  function Rotr32By6(x: bv32): bv32 { (x >> 6) | (x << 26) }
  function Rotr32By7(x: bv32): bv32 { (x >> 7) | (x << 25) }
  function Rotr32By11(x: bv32): bv32 { (x >> 11) | (x << 21) }
  function Rotr32By13(x: bv32): bv32 { (x >> 13) | (x << 19) }
  function Rotr32By17(x: bv32): bv32 { (x >> 17) | (x << 15) }
  function Rotr32By18(x: bv32): bv32 { (x >> 18) | (x << 14) }
  function Rotr32By19(x: bv32): bv32 { (x >> 19) | (x << 13) }
  function Rotr32By22(x: bv32): bv32 { (x >> 22) | (x << 10) }
  function Rotr32By25(x: bv32): bv32 { (x >> 25) | (x << 7) }

  function Add32(x: bv32, y: bv32): bv32 { x + y }
  function Ch32(x: bv32, y: bv32, z: bv32): bv32 { (x & y) ^ (!x & z) }
  function Maj32(x: bv32, y: bv32, z: bv32): bv32 { (x & y) ^ (x & z) ^ (y & z) }
  function BigSigma0For256(x: bv32): bv32 { Rotr32By2(x) ^ Rotr32By13(x) ^ Rotr32By22(x) }
  function BigSigma1For256(x: bv32): bv32 { Rotr32By6(x) ^ Rotr32By11(x) ^ Rotr32By25(x) }
  function Sigma0For256(x: bv32): bv32 { Rotr32By7(x) ^ Rotr32By18(x) ^ (x >> 3) }
  function Sigma1For256(x: bv32): bv32 { Rotr32By17(x) ^ Rotr32By19(x) ^ (x >> 10) }

  /** reverse_32bit: halves swapped, then the bytes of each half. */
  function Reverse32(x: bv32): bv32 {
    var y := (x >> 16) | (x << 16);
    ((y & 0xff00_ff00) >> 8) | ((y & 0x00ff_00ff) << 8)
  }

  /** The word with the given bytes, least significant first. */
  function Word32(b0: bv8, b1: bv8, b2: bv8, b3: bv8): bv32 {
    (b0 as bv32) | ((b1 as bv32) << 8) | ((b2 as bv32) << 16) | ((b3 as bv32) << 24)
  }

  /** The host's load. */
  function Load32(s: seq<bv8>): bv32 {
    if |s| != 4 then 0 else Word32(s[0], s[1], s[2], s[3])
  }

  /** The host's store. */
  function Store32(w: bv32): seq<bv8> {
    [(w & 0xff) as bv8, ((w >> 8) & 0xff) as bv8, ((w >> 16) & 0xff) as bv8, ((w >> 24) & 0xff) as bv8]
  }

  function BigEndian32(s: seq<bv8>): bv32 {
    if |s| != 4 then 0 else Word32(s[3], s[2], s[1], s[0])
  }

  function ToBigEndian32(w: bv32): seq<bv8> {
    [((w >> 24) & 0xff) as bv8, ((w >> 16) & 0xff) as bv8, ((w >> 8) & 0xff) as bv8, (w & 0xff) as bv8]
  }

  // the constants K, sixteen at a time

  function K256a(j: nat): bv32
    requires j < 16
  {
    match j
    case 0 => 0x428a_2f98
    case 1 => 0x7137_4491
    case 2 => 0xb5c0_fbcf
    case 3 => 0xe9b5_dba5
    case 4 => 0x3956_c25b
    case 5 => 0x59f1_11f1
    case 6 => 0x923f_82a4
    case 7 => 0xab1c_5ed5
    case 8 => 0xd807_aa98
    case 9 => 0x1283_5b01
    case 10 => 0x2431_85be
    case 11 => 0x550c_7dc3
    case 12 => 0x72be_5d74
    case 13 => 0x80de_b1fe
    case 14 => 0x9bdc_06a7
    case _ => 0xc19b_f174
  }

  function K256b(j: nat): bv32
    requires j < 16
  {
    match j
    case 0 => 0xe49b_69c1
    case 1 => 0xefbe_4786
    case 2 => 0x0fc1_9dc6
    case 3 => 0x240c_a1cc
    case 4 => 0x2de9_2c6f
    case 5 => 0x4a74_84aa
    case 6 => 0x5cb0_a9dc
    case 7 => 0x76f9_88da
    case 8 => 0x983e_5152
    case 9 => 0xa831_c66d
    case 10 => 0xb003_27c8
    case 11 => 0xbf59_7fc7
    case 12 => 0xc6e0_0bf3
    case 13 => 0xd5a7_9147
    case 14 => 0x06ca_6351
    case _ => 0x1429_2967
  }

  function K256c(j: nat): bv32
    requires j < 16
  {
    match j
    case 0 => 0x27b7_0a85
    case 1 => 0x2e1b_2138
    case 2 => 0x4d2c_6dfc
    case 3 => 0x5338_0d13
    case 4 => 0x650a_7354
    case 5 => 0x766a_0abb
    case 6 => 0x81c2_c92e
    case 7 => 0x9272_2c85
    case 8 => 0xa2bf_e8a1
    case 9 => 0xa81a_664b
    case 10 => 0xc24b_8b70
    case 11 => 0xc76c_51a3
    case 12 => 0xd192_e819
    case 13 => 0xd699_0624
    case 14 => 0xf40e_3585
    case _ => 0x106a_a070
  }

  function K256d(j: nat): bv32
    requires j < 16
  {
    match j
    case 0 => 0x19a4_c116
    case 1 => 0x1e37_6c08
    case 2 => 0x2748_774c
    case 3 => 0x34b0_bcb5
    case 4 => 0x391c_0cb3
    case 5 => 0x4ed8_aa4a
    case 6 => 0x5b9c_ca4f
    case 7 => 0x682e_6ff3
    case 8 => 0x748f_82ee
    case 9 => 0x78a5_636f
    case 10 => 0x84c8_7814
    case 11 => 0x8cc7_0208
    case 12 => 0x90be_fffa
    case 13 => 0xa450_6ceb
    case 14 => 0xbef9_a3f7
    case _ => 0xc671_78f2
  }

  function RoundConstant256(t: nat): bv32 {
    if t < 16 then K256a(t)
    else if t < 32 then K256b(t - 16)
    else if t < 48 then K256c(t - 32)
    else if t < 64 then K256d(t - 48)
    else 0
  }

  const IV256: Regs<bv32> := Regs(
      0x6a09_e667, 0xbb67_ae85, 0x3c6e_f372, 0xa54f_f53a,
      0x510e_527f, 0x9b05_688c, 0x1f83_d9ab, 0x5be0_cd19)

  function Algebra256(): Algebra<bv32> {
    Algebra(4, Add32, Ch32, Maj32, BigSigma0For256, BigSigma1For256, Sigma0For256, Sigma1For256,
            64, RoundConstant256, BigEndian32, ToBigEndian32)
  }

  function Machine256(): Machine<bv32> {
    Machine(Algebra256(), Load32, Store32, Reverse32)
  }

  // ----- 64-bit words (SHA-512 and SHA-384)

  // the macro S64, for the amounts it is used with

  function Rotr64By1(x: bv64): bv64 { (x >> 1) | (x << 63) }
  function Rotr64By8(x: bv64): bv64 { (x >> 8) | (x << 56) }
  function Rotr64By14(x: bv64): bv64 { (x >> 14) | (x << 50) }
  function Rotr64By18(x: bv64): bv64 { (x >> 18) | (x << 46) }
  function Rotr64By19(x: bv64): bv64 { (x >> 19) | (x << 45) }
  function Rotr64By28(x: bv64): bv64 { (x >> 28) | (x << 36) }
  function Rotr64By34(x: bv64): bv64 { (x >> 34) | (x << 30) }
  function Rotr64By39(x: bv64): bv64 { (x >> 39) | (x << 25) }
  function Rotr64By41(x: bv64): bv64 { (x >> 41) | (x << 23) }
  function Rotr64By61(x: bv64): bv64 { (x >> 61) | (x << 3) }

  function Add64(x: bv64, y: bv64): bv64 { x + y }
  function Ch64(x: bv64, y: bv64, z: bv64): bv64 { (x & y) ^ (!x & z) }
  function Maj64(x: bv64, y: bv64, z: bv64): bv64 { (x & y) ^ (x & z) ^ (y & z) }
  function BigSigma0For512(x: bv64): bv64 { Rotr64By28(x) ^ Rotr64By34(x) ^ Rotr64By39(x) }
  function BigSigma1For512(x: bv64): bv64 { Rotr64By14(x) ^ Rotr64By18(x) ^ Rotr64By41(x) }
  function Sigma0For512(x: bv64): bv64 { Rotr64By1(x) ^ Rotr64By8(x) ^ (x >> 7) }
  function Sigma1For512(x: bv64): bv64 { Rotr64By19(x) ^ Rotr64By61(x) ^ (x >> 6) }

  /** reverse_64bit: halves swapped, then bytes of pairs, then pairs. */
  function Reverse64(x: bv64): bv64 {
    var y := (x >> 32) | (x << 32);
    var z := ((y & 0xff00_ff00_ff00_ff00) >> 8) | ((y & 0x00ff_00ff_00ff_00ff) << 8);
    ((z & 0xffff_0000_ffff_0000) >> 16) | ((z & 0x0000_ffff_0000_ffff) << 16)
  }

  /** The word with the given bytes, least significant first. */
  function Word64(b0: bv8, b1: bv8, b2: bv8, b3: bv8, b4: bv8, b5: bv8, b6: bv8, b7: bv8): bv64 {
    (b0 as bv64) | ((b1 as bv64) << 8) | ((b2 as bv64) << 16) | ((b3 as bv64) << 24)
    | ((b4 as bv64) << 32) | ((b5 as bv64) << 40) | ((b6 as bv64) << 48) | ((b7 as bv64) << 56)
  }

  /** The host's load. */
  function Load64(s: seq<bv8>): bv64 {
    if |s| != 8 then 0 else Word64(s[0], s[1], s[2], s[3], s[4], s[5], s[6], s[7])
  }

  /** The host's store. */
  function Store64(w: bv64): seq<bv8> {
    [(w & 0xff) as bv8, ((w >> 8) & 0xff) as bv8, ((w >> 16) & 0xff) as bv8, ((w >> 24) & 0xff) as bv8,
     ((w >> 32) & 0xff) as bv8, ((w >> 40) & 0xff) as bv8, ((w >> 48) & 0xff) as bv8, ((w >> 56) & 0xff) as bv8]
  }

  function BigEndian64(s: seq<bv8>): bv64 {
    if |s| != 8 then 0 else Word64(s[7], s[6], s[5], s[4], s[3], s[2], s[1], s[0])
  }

  function ToBigEndian64(w: bv64): seq<bv8> {
    [((w >> 56) & 0xff) as bv8, ((w >> 48) & 0xff) as bv8, ((w >> 40) & 0xff) as bv8, ((w >> 32) & 0xff) as bv8,
     ((w >> 24) & 0xff) as bv8, ((w >> 16) & 0xff) as bv8, ((w >> 8) & 0xff) as bv8, (w & 0xff) as bv8]
  }

  // the constants K, sixteen at a time

  function K512a(j: nat): bv64
    requires j < 16
  {
    match j
    case 0 => 0x428a_2f98_d728_ae22
    case 1 => 0x7137_4491_23ef_65cd
    case 2 => 0xb5c0_fbcf_ec4d_3b2f
    case 3 => 0xe9b5_dba5_8189_dbbc
    case 4 => 0x3956_c25b_f348_b538
    case 5 => 0x59f1_11f1_b605_d019
    case 6 => 0x923f_82a4_af19_4f9b
    case 7 => 0xab1c_5ed5_da6d_8118
    case 8 => 0xd807_aa98_a303_0242
    case 9 => 0x1283_5b01_4570_6fbe
    case 10 => 0x2431_85be_4ee4_b28c
    case 11 => 0x550c_7dc3_d5ff_b4e2
    case 12 => 0x72be_5d74_f27b_896f
    case 13 => 0x80de_b1fe_3b16_96b1
    case 14 => 0x9bdc_06a7_25c7_1235
    case _ => 0xc19b_f174_cf69_2694
  }

  function K512b(j: nat): bv64
    requires j < 16
  {
    match j
    case 0 => 0xe49b_69c1_9ef1_4ad2
    case 1 => 0xefbe_4786_384f_25e3
    case 2 => 0x0fc1_9dc6_8b8c_d5b5
    case 3 => 0x240c_a1cc_77ac_9c65
    case 4 => 0x2de9_2c6f_592b_0275
    case 5 => 0x4a74_84aa_6ea6_e483
    case 6 => 0x5cb0_a9dc_bd41_fbd4
    case 7 => 0x76f9_88da_8311_53b5
    case 8 => 0x983e_5152_ee66_dfab
    case 9 => 0xa831_c66d_2db4_3210
    case 10 => 0xb003_27c8_98fb_213f
    case 11 => 0xbf59_7fc7_beef_0ee4
    case 12 => 0xc6e0_0bf3_3da8_8fc2
    case 13 => 0xd5a7_9147_930a_a725
    case 14 => 0x06ca_6351_e003_826f
    case _ => 0x1429_2967_0a0e_6e70
  }

  function K512c(j: nat): bv64
    requires j < 16
  {
    match j
    case 0 => 0x27b7_0a85_46d2_2ffc
    case 1 => 0x2e1b_2138_5c26_c926
    case 2 => 0x4d2c_6dfc_5ac4_2aed
    case 3 => 0x5338_0d13_9d95_b3df
    case 4 => 0x650a_7354_8baf_63de
    case 5 => 0x766a_0abb_3c77_b2a8
    case 6 => 0x81c2_c92e_47ed_aee6
    case 7 => 0x9272_2c85_1482_353b
    case 8 => 0xa2bf_e8a1_4cf1_0364
    case 9 => 0xa81a_664b_bc42_3001
    case 10 => 0xc24b_8b70_d0f8_9791
    case 11 => 0xc76c_51a3_0654_be30
    case 12 => 0xd192_e819_d6ef_5218
    case 13 => 0xd699_0624_5565_a910
    case 14 => 0xf40e_3585_5771_202a
    case _ => 0x106a_a070_32bb_d1b8
  }

  function K512d(j: nat): bv64
    requires j < 16
  {
    match j
    case 0 => 0x19a4_c116_b8d2_d0c8
    case 1 => 0x1e37_6c08_5141_ab53
    case 2 => 0x2748_774c_df8e_eb99
    case 3 => 0x34b0_bcb5_e19b_48a8
    case 4 => 0x391c_0cb3_c5c9_5a63
    case 5 => 0x4ed8_aa4a_e341_8acb
    case 6 => 0x5b9c_ca4f_7763_e373
    case 7 => 0x682e_6ff3_d6b2_b8a3
    case 8 => 0x748f_82ee_5def_b2fc
    case 9 => 0x78a5_636f_4317_2f60
    case 10 => 0x84c8_7814_a1f0_ab72
    case 11 => 0x8cc7_0208_1a64_39ec
    case 12 => 0x90be_fffa_2363_1e28
    case 13 => 0xa450_6ceb_de82_bde9
    case 14 => 0xbef9_a3f7_b2c6_7915
    case _ => 0xc671_78f2_e372_532b
  }

  function K512e(j: nat): bv64
    requires j < 16
  {
    match j
    case 0 => 0xca27_3ece_ea26_619c
    case 1 => 0xd186_b8c7_21c0_c207
    case 2 => 0xeada_7dd6_cde0_eb1e
    case 3 => 0xf57d_4f7f_ee6e_d178
    case 4 => 0x06f0_67aa_7217_6fba
    case 5 => 0x0a63_7dc5_a2c8_98a6
    case 6 => 0x113f_9804_bef9_0dae
    case 7 => 0x1b71_0b35_131c_471b
    case 8 => 0x28db_77f5_2304_7d84
    case 9 => 0x32ca_ab7b_40c7_2493
    case 10 => 0x3c9e_be0a_15c9_bebc
    case 11 => 0x431d_67c4_9c10_0d4c
    case 12 => 0x4cc5_d4be_cb3e_42b6
    case 13 => 0x597f_299c_fc65_7e2a
    case 14 => 0x5fcb_6fab_3ad6_faec
    case _ => 0x6c44_198c_4a47_5817
  }

  function RoundConstant512(t: nat): bv64 {
    if t < 16 then K512a(t)
    else if t < 32 then K512b(t - 16)
    else if t < 48 then K512c(t - 32)
    else if t < 64 then K512d(t - 48)
    else if t < 80 then K512e(t - 64)
    else 0
  }

  const IV512: Regs<bv64> := Regs(
      0x6a09_e667_f3bc_c908, 0xbb67_ae85_84ca_a73b, 0x3c6e_f372_fe94_f82b, 0xa54f_f53a_5f1d_36f1,
      0x510e_527f_ade6_82d1, 0x9b05_688c_2b3e_6c1f, 0x1f83_d9ab_fb41_bd6b, 0x5be0_cd19_137e_2179)

  const IV384: Regs<bv64> := Regs(
      0xcbbb_9d5d_c105_9ed8, 0x629a_292a_367c_d507, 0x9159_015a_3070_dd17, 0x152f_ecd8_f70e_5939,
      0x6733_2667_ffc0_0b31, 0x8eb4_4a87_6858_1511, 0xdb0c_2e0d_64f9_8fa7, 0x47b5_481d_befa_4fa4)

  function Algebra512(): Algebra<bv64> {
    Algebra(8, Add64, Ch64, Maj64, BigSigma0For512, BigSigma1For512, Sigma0For512, Sigma1For512,
            80, RoundConstant512, BigEndian64, ToBigEndian64)
  }

  function Machine512(): Machine<bv64> {
    Machine(Algebra512(), Load64, Store64, Reverse64)
  }

  // ----- byte order

  lemma WordBytes32(b0: bv8, b1: bv8, b2: bv8, b3: bv8)
    ensures var w := Word32(b0, b1, b2, b3);
            && (w & 0xff) as bv8 == b0 && ((w >> 8) & 0xff) as bv8 == b1
            && ((w >> 16) & 0xff) as bv8 == b2 && ((w >> 24) & 0xff) as bv8 == b3
  {}

  lemma BytesWord32(w: bv32)
    ensures Word32((w & 0xff) as bv8, ((w >> 8) & 0xff) as bv8,
                   ((w >> 16) & 0xff) as bv8, ((w >> 24) & 0xff) as bv8) == w
  {}

  lemma ReverseWord32(b0: bv8, b1: bv8, b2: bv8, b3: bv8)
    ensures Reverse32(Word32(b0, b1, b2, b3)) == Word32(b3, b2, b1, b0)
  {}

  lemma LoadStore32(w: bv32)
    ensures |Store32(w)| == 4 && Load32(Store32(w)) == w
  {
    BytesWord32(w);
  }

  /** The byte swap turns the host's load into a big-endian one. */
  lemma SwappedLoad32(s: seq<bv8>)
    requires |s| == 4
    ensures Reverse32(Load32(s)) == BigEndian32(s)
  {
    ReverseWord32(s[0], s[1], s[2], s[3]);
  }

  /** The byte swap turns the host's store into a big-endian one. */
  lemma SwappedStore32(w: bv32)
    ensures Store32(Reverse32(w)) == ToBigEndian32(w)
  {
    hide Reverse32, Word32;
    var s := Store32(w);
    BytesWord32(w);
    ReverseWord32(s[0], s[1], s[2], s[3]);
    WordBytes32(s[3], s[2], s[1], s[0]);
  }

  lemma WordBytes64(b0: bv8, b1: bv8, b2: bv8, b3: bv8, b4: bv8, b5: bv8, b6: bv8, b7: bv8)
    ensures var w := Word64(b0, b1, b2, b3, b4, b5, b6, b7);
            && (w & 0xff) as bv8 == b0 && ((w >> 8) & 0xff) as bv8 == b1
            && ((w >> 16) & 0xff) as bv8 == b2 && ((w >> 24) & 0xff) as bv8 == b3
    ensures var w := Word64(b0, b1, b2, b3, b4, b5, b6, b7);
            && ((w >> 32) & 0xff) as bv8 == b4 && ((w >> 40) & 0xff) as bv8 == b5
            && ((w >> 48) & 0xff) as bv8 == b6 && ((w >> 56) & 0xff) as bv8 == b7
  {}

  lemma BytesWord64(w: bv64)
    ensures Word64((w & 0xff) as bv8, ((w >> 8) & 0xff) as bv8,
                   ((w >> 16) & 0xff) as bv8, ((w >> 24) & 0xff) as bv8,
                   ((w >> 32) & 0xff) as bv8, ((w >> 40) & 0xff) as bv8,
                   ((w >> 48) & 0xff) as bv8, ((w >> 56) & 0xff) as bv8) == w
  {}

  lemma ReverseWord64(b0: bv8, b1: bv8, b2: bv8, b3: bv8, b4: bv8, b5: bv8, b6: bv8, b7: bv8)
    ensures Reverse64(Word64(b0, b1, b2, b3, b4, b5, b6, b7)) == Word64(b7, b6, b5, b4, b3, b2, b1, b0)
  {}

  lemma LoadStore64(w: bv64)
    ensures |Store64(w)| == 8 && Load64(Store64(w)) == w
  {
    BytesWord64(w);
  }

  /** The byte swap turns the host's load into a big-endian one. */
  lemma SwappedLoad64(s: seq<bv8>)
    requires |s| == 8
    ensures Reverse64(Load64(s)) == BigEndian64(s)
  {
    ReverseWord64(s[0], s[1], s[2], s[3], s[4], s[5], s[6], s[7]);
  }

  /** The byte swap turns the host's store into a big-endian one. */
  lemma SwappedStore64(w: bv64)
    ensures Store64(Reverse64(w)) == ToBigEndian64(w)
  {
    hide Reverse64, Word64;
    var s := Store64(w);
    BytesWord64(w);
    ReverseWord64(s[0], s[1], s[2], s[3], s[4], s[5], s[6], s[7]);
    WordBytes64(s[7], s[6], s[5], s[4], s[3], s[2], s[1], s[0]);
  }

  lemma AddCommutes32(x: bv32, y: bv32)
    ensures Add32(x, y) == Add32(y, x)
  {}

  lemma Machine256IsLawful()
    ensures Lawful(Machine256())
  {
    hide Store32, Load32, Reverse32, BigEndian32, ToBigEndian32, Add32, Ch32, Maj32;
    hide BigSigma0For256, BigSigma1For256, Sigma0For256, Sigma1For256, RoundConstant256;
    forall x: bv32, y: bv32 ensures Add32(x, y) == Add32(y, x) { AddCommutes32(x, y); }
    forall w: bv32 ensures |Store32(w)| == 4 && Load32(Store32(w)) == w { LoadStore32(w); }
    forall s: seq<bv8> | |s| == 4 ensures Reverse32(Load32(s)) == BigEndian32(s) { SwappedLoad32(s); }
  }

  lemma Machine256OutputIsLawful()
    ensures LawfulOutput(Machine256())
  {
    hide Store32, Load32, Reverse32, BigEndian32, ToBigEndian32, Add32, Ch32, Maj32;
    hide BigSigma0For256, BigSigma1For256, Sigma0For256, Sigma1For256, RoundConstant256;
    forall w: bv32 ensures Store32(Reverse32(w)) == ToBigEndian32(w) { SwappedStore32(w); }
  }

  lemma AddCommutes64(x: bv64, y: bv64)
    ensures Add64(x, y) == Add64(y, x)
  {}

  lemma Machine512IsLawful()
    ensures Lawful(Machine512())
  {
    hide Store64, Load64, Reverse64, BigEndian64, ToBigEndian64, Add64, Ch64, Maj64;
    hide BigSigma0For512, BigSigma1For512, Sigma0For512, Sigma1For512, RoundConstant512;
    forall x: bv64, y: bv64 ensures Add64(x, y) == Add64(y, x) { AddCommutes64(x, y); }
    forall w: bv64 ensures |Store64(w)| == 8 && Load64(Store64(w)) == w { LoadStore64(w); }
    forall s: seq<bv8> | |s| == 8 ensures Reverse64(Load64(s)) == BigEndian64(s) { SwappedLoad64(s); }
  }

  lemma Machine512OutputIsLawful()
    ensures LawfulOutput(Machine512())
  {
    hide Store64, Load64, Reverse64, BigEndian64, ToBigEndian64, Add64, Ch64, Maj64;
    hide BigSigma0For512, BigSigma1For512, Sigma0For512, Sigma1For512, RoundConstant512;
    forall w: bv64 ensures Store64(Reverse64(w)) == ToBigEndian64(w) { SwappedStore64(w); }
  }
}
