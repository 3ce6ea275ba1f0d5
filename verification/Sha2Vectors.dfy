/**
  The three variants of sha2.c on the message "abc": the digests that FIPS 180-4 gives as
  examples.
 */
module Sha2Vectors {
  import opened BlockStream
  import opened Sha2Counter
  import opened Sha2Spec
  import opened Sha2Stream
  import opened Sha2Transform
  import opened Sha2Words

  /** The length field of three bytes. */
  lemma LengthIs24(wide: bool)
    ensures LengthField(wide, 3) == Zeros(if wide then 15 else 7) + [0x18]
  {
    hide BigEndian;
    assert 24 % Modulus(wide) == 24;
    BytesOf24(if wide then 16 else 8);
  }

  lemma BytesOf24(n: nat)
    requires n > 0
    ensures BigEndian(24, n) == Zeros(n - 1) + [0x18]
  {
    hide Digit;
    var s, u := BigEndian(24, n), Zeros(n - 1) + [0x18];
    FirstDigit(24);
    forall i | 0 <= i < n ensures s[i] == u[i] {
      if i < n - 1 {
        NoDigit(24, n - 1 - i);
      }
    }
  }

  /** The bytes of eight words are those of each in turn. */
  lemma BytesOf8<W>(alg: Algebra<W>, a: W, b: W, c: W, d: W, e: W, f: W, g: W, h: W)
    ensures WordBytes(alg, [a, b, c, d, e, f, g, h])
         == alg.toBigEndian(a) + alg.toBigEndian(b) + alg.toBigEndian(c) +
            alg.toBigEndian(d) + alg.toBigEndian(e) + alg.toBigEndian(f) +
            alg.toBigEndian(g) + alg.toBigEndian(h)
  {
    hide WordBytes;
    WordBytesStep(alg, [], a);
    assert [] + [a] == [a];
    WordBytesStep(alg, [a], b);
    assert [a] + [b] == [a, b];
    WordBytesStep(alg, [a, b], c);
    assert [a, b] + [c] == [a, b, c];
    WordBytesStep(alg, [a, b, c], d);
    assert [a, b, c] + [d] == [a, b, c, d];
    WordBytesStep(alg, [a, b, c, d], e);
    assert [a, b, c, d] + [e] == [a, b, c, d, e];
    WordBytesStep(alg, [a, b, c, d, e], f);
    assert [a, b, c, d, e] + [f] == [a, b, c, d, e, f];
    WordBytesStep(alg, [a, b, c, d, e, f], g);
    assert [a, b, c, d, e, f] + [g] == [a, b, c, d, e, f, g];
    WordBytesStep(alg, [a, b, c, d, e, f, g], h);
    assert [a, b, c, d, e, f, g] + [h] == [a, b, c, d, e, f, g, h];
  }

  /** The bytes of six words are those of each in turn. */
  lemma BytesOf6<W>(alg: Algebra<W>, a: W, b: W, c: W, d: W, e: W, f: W)
    ensures WordBytes(alg, [a, b, c, d, e, f])
         == alg.toBigEndian(a) + alg.toBigEndian(b) + alg.toBigEndian(c) +
            alg.toBigEndian(d) + alg.toBigEndian(e) + alg.toBigEndian(f)
  {
    hide WordBytes;
    WordBytesStep(alg, [], a);
    assert [] + [a] == [a];
    WordBytesStep(alg, [a], b);
    assert [a] + [b] == [a, b];
    WordBytesStep(alg, [a, b], c);
    assert [a, b] + [c] == [a, b, c];
    WordBytesStep(alg, [a, b, c], d);
    assert [a, b, c] + [d] == [a, b, c, d];
    WordBytesStep(alg, [a, b, c, d], e);
    assert [a, b, c, d] + [e] == [a, b, c, d, e];
    WordBytesStep(alg, [a, b, c, d, e], f);
    assert [a, b, c, d, e] + [f] == [a, b, c, d, e, f];
  }

  // ----- 32-bit words

  function T1Of256(e: bv32, f: bv32, g: bv32, h: bv32, k: bv32, w: bv32): bv32 {
    Add32(Add32(Add32(Add32(h, BigSigma1For256(e)), Ch32(e, f, g)), k), w)
  }

  function T2Of256(a: bv32, x: bv32, c: bv32): bv32 {
    Add32(BigSigma0For256(a), Maj32(a, x, c))
  }

  /** The message "abc", padded, its schedule, and its rounds from an initial value. */
  function Abc256(): (s: seq<bv8>)
    ensures |s| == 64
  {
    [0x61, 0x62, 0x63, 0x80] + Zeros(59) + [0x18]
  }

  function W256(t: nat): bv32 {
    Schedule(Algebra256(), Abc256(), t)
  }

  function After256(iv: Regs<bv32>, t: nat): Regs<bv32>
    requires t <= 64
  {
    Rounds(Algebra256(), iv, Abc256(), t)
  }

  /** One round on known registers. */
  lemma Round256(iv: Regs<bv32>, t: nat, k: bv32, w: bv32,
                  a: bv32, x: bv32, c: bv32, d: bv32, e: bv32, f: bv32, g: bv32, h: bv32)
    returns (a': bv32, e': bv32)
    requires t < 64 && After256(iv, t) == Regs(a, x, c, d, e, f, g, h)
    requires RoundConstant256(t) == k && W256(t) == w
    ensures a' == Add32(T1Of256(e, f, g, h, k, w), T2Of256(a, x, c)) && e' == Add32(d, T1Of256(e, f, g, h, k, w))
    ensures After256(iv, t + 1) == Regs(a', a, x, c, e', e, f, g)
  {
    hide Add32, Ch32, Maj32, BigSigma0For256, BigSigma1For256, Schedule, RoundConstant256;
    a', e' := Add32(T1Of256(e, f, g, h, k, w), T2Of256(a, x, c)), Add32(d, T1Of256(e, f, g, h, k, w));
  }

  /** One word of the schedule from known ones. */
  lemma Word256(t: nat, w2: bv32, w7: bv32, w15: bv32, w16: bv32) returns (w: bv32)
    requires t >= 16 && W256(t - 2) == w2 && W256(t - 7) == w7 && W256(t - 15) == w15 && W256(t - 16) == w16
    ensures w == Add32(Add32(Add32(Sigma1For256(w2), w7), Sigma0For256(w15)), w16) && W256(t) == w
  {
    hide Add32, Sigma0For256, Sigma1For256;
    w := Add32(Add32(Add32(Sigma1For256(w2), w7), Sigma0For256(w15)), w16);
  }

  lemma Words256From0()
    ensures W256(0) == 0x6162_6380 && W256(1) == 0x0000_0000 && W256(2) == 0x0000_0000 && W256(3) == 0x0000_0000
    ensures W256(4) == 0x0000_0000 && W256(5) == 0x0000_0000 && W256(6) == 0x0000_0000 && W256(7) == 0x0000_0000
    ensures W256(8) == 0x0000_0000 && W256(9) == 0x0000_0000 && W256(10) == 0x0000_0000 && W256(11) == 0x0000_0000
    ensures W256(12) == 0x0000_0000 && W256(13) == 0x0000_0000 && W256(14) == 0x0000_0000 && W256(15) == 0x0000_0018
  {
    hide W256;
    FirstWord256();
    LastWord256();
    ZeroWord256(1);
    ZeroWord256(2);
    ZeroWord256(3);
    ZeroWord256(4);
    ZeroWord256(5);
    ZeroWord256(6);
    ZeroWord256(7);
    ZeroWord256(8);
    ZeroWord256(9);
    ZeroWord256(10);
    ZeroWord256(11);
    ZeroWord256(12);
    ZeroWord256(13);
    ZeroWord256(14);
  }

  lemma FirstWord256()
    ensures W256(0) == 0x6162_6380
  {
    hide BigEndian32;
    WordsAre256();
    assert Abc256()[..4] == [0x61, 0x62, 0x63, 0x80];
  }

  lemma LastWord256()
    ensures W256(15) == 0x0000_0018
  {
    hide BigEndian32;
    WordsAre256();
    var s := Abc256()[60..64];
    assert s == [0, 0, 0, 0x18];
    assert BlockWord(Algebra256(), Abc256(), 15) == BigEndian32(s);
  }

  lemma ZeroWord256(t: nat)
    requires 1 <= t < 15
    ensures W256(t) == 0
  {
    hide BigEndian32;
    WordsAre256();
    var s := Abc256()[t * 4..(t + 1) * 4];
    assert s == Zeros(4);
    assert BlockWord(Algebra256(), Abc256(), t) == BigEndian32(s);
  }

  lemma WordsAre256()
    ensures BigEndian32([0x61, 0x62, 0x63, 0x80]) == 0x6162_6380
    ensures BigEndian32([0, 0, 0, 0x18]) == 0x0000_0018 && BigEndian32(Zeros(4)) == 0
  {}

  lemma Words256From16()
    ensures W256(16) == 0x6162_6380 && W256(17) == 0x000f_0000 && W256(18) == 0x7da8_6405 && W256(19) == 0x6000_03c6
    ensures W256(20) == 0x3e9d_7b78 && W256(21) == 0x0183_fc00 && W256(22) == 0x12dc_bfdb && W256(23) == 0xe2e2_c38e
    ensures W256(24) == 0xc821_5c1a && W256(25) == 0xb736_79a2 && W256(26) == 0xe5bc_3909 && W256(27) == 0x3266_3c5b
    ensures W256(28) == 0x9d20_9d67 && W256(29) == 0xec87_26cb && W256(30) == 0x7021_38a4 && W256(31) == 0xd3b7_973b
  {
    hide W256;
    Words256From0();
    var w16 := Word256(16, 0x0000_0000, 0x0000_0000, 0x0000_0000, 0x6162_6380);
    var w17 := Word256(17, 0x0000_0018, 0x0000_0000, 0x0000_0000, 0x0000_0000);
    var w18 := Word256(18, w16, 0x0000_0000, 0x0000_0000, 0x0000_0000);
    var w19 := Word256(19, w17, 0x0000_0000, 0x0000_0000, 0x0000_0000);
    var w20 := Word256(20, w18, 0x0000_0000, 0x0000_0000, 0x0000_0000);
    var w21 := Word256(21, w19, 0x0000_0000, 0x0000_0000, 0x0000_0000);
    var w22 := Word256(22, w20, 0x0000_0018, 0x0000_0000, 0x0000_0000);
    var w23 := Word256(23, w21, w16, 0x0000_0000, 0x0000_0000);
    var w24 := Word256(24, w22, w17, 0x0000_0000, 0x0000_0000);
    var w25 := Word256(25, w23, w18, 0x0000_0000, 0x0000_0000);
    var w26 := Word256(26, w24, w19, 0x0000_0000, 0x0000_0000);
    var w27 := Word256(27, w25, w20, 0x0000_0000, 0x0000_0000);
    var w28 := Word256(28, w26, w21, 0x0000_0000, 0x0000_0000);
    var w29 := Word256(29, w27, w22, 0x0000_0000, 0x0000_0000);
    var w30 := Word256(30, w28, w23, 0x0000_0018, 0x0000_0000);
    var w31 := Word256(31, w29, w24, w16, 0x0000_0018);
  }

  lemma Words256From32()
    ensures W256(32) == 0x93f5_997f && W256(33) == 0x3b68_ba73 && W256(34) == 0xaff4_ffc1 && W256(35) == 0xf10a_5c62
    ensures W256(36) == 0x0a8b_3996 && W256(37) == 0x72af_830a && W256(38) == 0x9409_e33e && W256(39) == 0x2464_1522
    ensures W256(40) == 0x9f47_bf94 && W256(41) == 0xf0a6_4f5a && W256(42) == 0x3e24_6a79 && W256(43) == 0x2733_3ba3
    ensures W256(44) == 0x0c47_63f2 && W256(45) == 0x840a_bf27 && W256(46) == 0x7a29_0d5d && W256(47) == 0x065c_43da
  {
    hide W256;
    Words256From16();
    var w32 := Word256(32, 0x7021_38a4, 0xb736_79a2, 0x000f_0000, 0x6162_6380);
    var w33 := Word256(33, 0xd3b7_973b, 0xe5bc_3909, 0x7da8_6405, 0x000f_0000);
    var w34 := Word256(34, w32, 0x3266_3c5b, 0x6000_03c6, 0x7da8_6405);
    var w35 := Word256(35, w33, 0x9d20_9d67, 0x3e9d_7b78, 0x6000_03c6);
    var w36 := Word256(36, w34, 0xec87_26cb, 0x0183_fc00, 0x3e9d_7b78);
    var w37 := Word256(37, w35, 0x7021_38a4, 0x12dc_bfdb, 0x0183_fc00);
    var w38 := Word256(38, w36, 0xd3b7_973b, 0xe2e2_c38e, 0x12dc_bfdb);
    var w39 := Word256(39, w37, w32, 0xc821_5c1a, 0xe2e2_c38e);
    var w40 := Word256(40, w38, w33, 0xb736_79a2, 0xc821_5c1a);
    var w41 := Word256(41, w39, w34, 0xe5bc_3909, 0xb736_79a2);
    var w42 := Word256(42, w40, w35, 0x3266_3c5b, 0xe5bc_3909);
    var w43 := Word256(43, w41, w36, 0x9d20_9d67, 0x3266_3c5b);
    var w44 := Word256(44, w42, w37, 0xec87_26cb, 0x9d20_9d67);
    var w45 := Word256(45, w43, w38, 0x7021_38a4, 0xec87_26cb);
    var w46 := Word256(46, w44, w39, 0xd3b7_973b, 0x7021_38a4);
    var w47 := Word256(47, w45, w40, w32, 0xd3b7_973b);
  }

  lemma Words256From48()
    ensures W256(48) == 0xfb3e_89cb && W256(49) == 0xcc76_17db && W256(50) == 0xb9e6_6c34 && W256(51) == 0xa999_3667
    ensures W256(52) == 0x84ba_dedd && W256(53) == 0xc214_62bc && W256(54) == 0x1487_472c && W256(55) == 0xb20f_7a99
    ensures W256(56) == 0xef57_b9cd && W256(57) == 0xebe6_b238 && W256(58) == 0x9fe3_095e && W256(59) == 0x78bc_8d4b
    ensures W256(60) == 0xa43f_cf15 && W256(61) == 0x668b_2ff8 && W256(62) == 0xeeab_a2cc && W256(63) == 0x12b1_edeb
  {
    hide W256;
    Words256From32();
    var w48 := Word256(48, 0x7a29_0d5d, 0xf0a6_4f5a, 0x3b68_ba73, 0x93f5_997f);
    var w49 := Word256(49, 0x065c_43da, 0x3e24_6a79, 0xaff4_ffc1, 0x3b68_ba73);
    var w50 := Word256(50, w48, 0x2733_3ba3, 0xf10a_5c62, 0xaff4_ffc1);
    var w51 := Word256(51, w49, 0x0c47_63f2, 0x0a8b_3996, 0xf10a_5c62);
    var w52 := Word256(52, w50, 0x840a_bf27, 0x72af_830a, 0x0a8b_3996);
    var w53 := Word256(53, w51, 0x7a29_0d5d, 0x9409_e33e, 0x72af_830a);
    var w54 := Word256(54, w52, 0x065c_43da, 0x2464_1522, 0x9409_e33e);
    var w55 := Word256(55, w53, w48, 0x9f47_bf94, 0x2464_1522);
    var w56 := Word256(56, w54, w49, 0xf0a6_4f5a, 0x9f47_bf94);
    var w57 := Word256(57, w55, w50, 0x3e24_6a79, 0xf0a6_4f5a);
    var w58 := Word256(58, w56, w51, 0x2733_3ba3, 0x3e24_6a79);
    var w59 := Word256(59, w57, w52, 0x0c47_63f2, 0x2733_3ba3);
    var w60 := Word256(60, w58, w53, 0x840a_bf27, 0x0c47_63f2);
    var w61 := Word256(61, w59, w54, 0x7a29_0d5d, 0x840a_bf27);
    var w62 := Word256(62, w60, w55, 0x065c_43da, 0x7a29_0d5d);
    var w63 := Word256(63, w61, w56, w48, 0x065c_43da);
  }

  lemma Constants256From0()
    ensures RoundConstant256(0) == 0x428a_2f98 && RoundConstant256(1) == 0x7137_4491
    ensures RoundConstant256(2) == 0xb5c0_fbcf && RoundConstant256(3) == 0xe9b5_dba5
    ensures RoundConstant256(4) == 0x3956_c25b && RoundConstant256(5) == 0x59f1_11f1
    ensures RoundConstant256(6) == 0x923f_82a4 && RoundConstant256(7) == 0xab1c_5ed5
  {}

  lemma Constants256From8()
    ensures RoundConstant256(8) == 0xd807_aa98 && RoundConstant256(9) == 0x1283_5b01
    ensures RoundConstant256(10) == 0x2431_85be && RoundConstant256(11) == 0x550c_7dc3
    ensures RoundConstant256(12) == 0x72be_5d74 && RoundConstant256(13) == 0x80de_b1fe
    ensures RoundConstant256(14) == 0x9bdc_06a7 && RoundConstant256(15) == 0xc19b_f174
  {}

  lemma Constants256From16()
    ensures RoundConstant256(16) == 0xe49b_69c1 && RoundConstant256(17) == 0xefbe_4786
    ensures RoundConstant256(18) == 0x0fc1_9dc6 && RoundConstant256(19) == 0x240c_a1cc
    ensures RoundConstant256(20) == 0x2de9_2c6f && RoundConstant256(21) == 0x4a74_84aa
    ensures RoundConstant256(22) == 0x5cb0_a9dc && RoundConstant256(23) == 0x76f9_88da
  {}

  lemma Constants256From24()
    ensures RoundConstant256(24) == 0x983e_5152 && RoundConstant256(25) == 0xa831_c66d
    ensures RoundConstant256(26) == 0xb003_27c8 && RoundConstant256(27) == 0xbf59_7fc7
    ensures RoundConstant256(28) == 0xc6e0_0bf3 && RoundConstant256(29) == 0xd5a7_9147
    ensures RoundConstant256(30) == 0x06ca_6351 && RoundConstant256(31) == 0x1429_2967
  {}

  lemma Constants256From32()
    ensures RoundConstant256(32) == 0x27b7_0a85 && RoundConstant256(33) == 0x2e1b_2138
    ensures RoundConstant256(34) == 0x4d2c_6dfc && RoundConstant256(35) == 0x5338_0d13
    ensures RoundConstant256(36) == 0x650a_7354 && RoundConstant256(37) == 0x766a_0abb
    ensures RoundConstant256(38) == 0x81c2_c92e && RoundConstant256(39) == 0x9272_2c85
  {}

  lemma Constants256From40()
    ensures RoundConstant256(40) == 0xa2bf_e8a1 && RoundConstant256(41) == 0xa81a_664b
    ensures RoundConstant256(42) == 0xc24b_8b70 && RoundConstant256(43) == 0xc76c_51a3
    ensures RoundConstant256(44) == 0xd192_e819 && RoundConstant256(45) == 0xd699_0624
    ensures RoundConstant256(46) == 0xf40e_3585 && RoundConstant256(47) == 0x106a_a070
  {}

  lemma Constants256From48()
    ensures RoundConstant256(48) == 0x19a4_c116 && RoundConstant256(49) == 0x1e37_6c08
    ensures RoundConstant256(50) == 0x2748_774c && RoundConstant256(51) == 0x34b0_bcb5
    ensures RoundConstant256(52) == 0x391c_0cb3 && RoundConstant256(53) == 0x4ed8_aa4a
    ensures RoundConstant256(54) == 0x5b9c_ca4f && RoundConstant256(55) == 0x682e_6ff3
  {}

  lemma Constants256From56()
    ensures RoundConstant256(56) == 0x748f_82ee && RoundConstant256(57) == 0x78a5_636f
    ensures RoundConstant256(58) == 0x84c8_7814 && RoundConstant256(59) == 0x8cc7_0208
    ensures RoundConstant256(60) == 0x90be_fffa && RoundConstant256(61) == 0xa450_6ceb
    ensures RoundConstant256(62) == 0xbef9_a3f7 && RoundConstant256(63) == 0xc671_78f2
  {}

  lemma Before256(iv: Regs<bv32>)
    ensures After256(iv, 0) == iv
  {}

  lemma RoundCount256()
    ensures Algebra256().rounds == 64 && BlockBytes(Algebra256()) == 64
  {}

  lemma Padded256()
    ensures Padded(64, [0x61, 0x62, 0x63], LengthField(false, 3)) == Abc256()
  {
    LengthIs24(false);
    PadZerosByRest(64, 8, 3);
  }

  lemma OneBlock256(iv: Regs<bv32>)
    ensures Blocks(Compressor(Algebra256()), 64, iv, Abc256()) == Compress(Algebra256(), iv, Abc256())
  {
    hide Compress, Compressor, Blocks;
    RoundCount256();
    CompressorCompresses(Algebra256(), iv, Abc256());
    OneBlockOf(Compressor(Algebra256()), 64, iv, Abc256());
  }

  lemma RoundsSHA256To16()
    ensures After256(IV256, 16) == Regs(0xb0fa_238e, 0xc064_5fde, 0xd932_eb16, 0x8791_2990, 0x0759_0dcd,
        0x0b92_f20c, 0x745a_48de, 0x1e57_8218)
  {
    hide After256, W256, RoundConstant256;
    Constants256From0();
    Constants256From8();
    Words256From0();
    Before256(IV256);
    var a1, e1 := Round256(IV256, 0, 0x428a_2f98, 0x6162_6380, 0x6a09_e667, 0xbb67_ae85, 0x3c6e_f372, 0xa54f_f53a,
      0x510e_527f, 0x9b05_688c, 0x1f83_d9ab, 0x5be0_cd19);
    var a2, e2 := Round256(IV256, 1, 0x7137_4491, 0x0000_0000, a1, 0x6a09_e667, 0xbb67_ae85, 0x3c6e_f372, e1,
      0x510e_527f, 0x9b05_688c, 0x1f83_d9ab);
    var a3, e3 := Round256(IV256, 2, 0xb5c0_fbcf, 0x0000_0000, a2, a1, 0x6a09_e667, 0xbb67_ae85, e2, e1,
      0x510e_527f, 0x9b05_688c);
    var a4, e4 := Round256(IV256, 3, 0xe9b5_dba5, 0x0000_0000, a3, a2, a1, 0x6a09_e667, e3, e2, e1, 0x510e_527f);
    var a5, e5 := Round256(IV256, 4, 0x3956_c25b, 0x0000_0000, a4, a3, a2, a1, e4, e3, e2, e1);
    var a6, e6 := Round256(IV256, 5, 0x59f1_11f1, 0x0000_0000, a5, a4, a3, a2, e5, e4, e3, e2);
    var a7, e7 := Round256(IV256, 6, 0x923f_82a4, 0x0000_0000, a6, a5, a4, a3, e6, e5, e4, e3);
    var a8, e8 := Round256(IV256, 7, 0xab1c_5ed5, 0x0000_0000, a7, a6, a5, a4, e7, e6, e5, e4);
    var a9, e9 := Round256(IV256, 8, 0xd807_aa98, 0x0000_0000, a8, a7, a6, a5, e8, e7, e6, e5);
    var a10, e10 := Round256(IV256, 9, 0x1283_5b01, 0x0000_0000, a9, a8, a7, a6, e9, e8, e7, e6);
    var a11, e11 := Round256(IV256, 10, 0x2431_85be, 0x0000_0000, a10, a9, a8, a7, e10, e9, e8, e7);
    var a12, e12 := Round256(IV256, 11, 0x550c_7dc3, 0x0000_0000, a11, a10, a9, a8, e11, e10, e9, e8);
    var a13, e13 := Round256(IV256, 12, 0x72be_5d74, 0x0000_0000, a12, a11, a10, a9, e12, e11, e10, e9);
    var a14, e14 := Round256(IV256, 13, 0x80de_b1fe, 0x0000_0000, a13, a12, a11, a10, e13, e12, e11, e10);
    var a15, e15 := Round256(IV256, 14, 0x9bdc_06a7, 0x0000_0000, a14, a13, a12, a11, e14, e13, e12, e11);
    var a16, e16 := Round256(IV256, 15, 0xc19b_f174, 0x0000_0018, a15, a14, a13, a12, e15, e14, e13, e12);
  }

  lemma RoundsSHA256To32()
    ensures After256(IV256, 32) == Regs(0x73b3_3bf5, 0xea99_2a22, 0xa006_0b30, 0x3634_82c9, 0xba59_1112,
        0x0109_ab3a, 0xade7_9437, 0x6112_a3b7)
  {
    hide After256, W256, RoundConstant256;
    Constants256From16();
    Constants256From24();
    Words256From16();
    RoundsSHA256To16();
    var a17, e17 := Round256(IV256, 16, 0xe49b_69c1, 0x6162_6380, 0xb0fa_238e, 0xc064_5fde, 0xd932_eb16,
      0x8791_2990, 0x0759_0dcd, 0x0b92_f20c, 0x745a_48de, 0x1e57_8218);
    var a18, e18 := Round256(IV256, 17, 0xefbe_4786, 0x000f_0000, a17, 0xb0fa_238e, 0xc064_5fde, 0xd932_eb16, e17,
      0x0759_0dcd, 0x0b92_f20c, 0x745a_48de);
    var a19, e19 := Round256(IV256, 18, 0x0fc1_9dc6, 0x7da8_6405, a18, a17, 0xb0fa_238e, 0xc064_5fde, e18, e17,
      0x0759_0dcd, 0x0b92_f20c);
    var a20, e20 := Round256(IV256, 19, 0x240c_a1cc, 0x6000_03c6, a19, a18, a17, 0xb0fa_238e, e19, e18, e17,
      0x0759_0dcd);
    var a21, e21 := Round256(IV256, 20, 0x2de9_2c6f, 0x3e9d_7b78, a20, a19, a18, a17, e20, e19, e18, e17);
    var a22, e22 := Round256(IV256, 21, 0x4a74_84aa, 0x0183_fc00, a21, a20, a19, a18, e21, e20, e19, e18);
    var a23, e23 := Round256(IV256, 22, 0x5cb0_a9dc, 0x12dc_bfdb, a22, a21, a20, a19, e22, e21, e20, e19);
    var a24, e24 := Round256(IV256, 23, 0x76f9_88da, 0xe2e2_c38e, a23, a22, a21, a20, e23, e22, e21, e20);
    var a25, e25 := Round256(IV256, 24, 0x983e_5152, 0xc821_5c1a, a24, a23, a22, a21, e24, e23, e22, e21);
    var a26, e26 := Round256(IV256, 25, 0xa831_c66d, 0xb736_79a2, a25, a24, a23, a22, e25, e24, e23, e22);
    var a27, e27 := Round256(IV256, 26, 0xb003_27c8, 0xe5bc_3909, a26, a25, a24, a23, e26, e25, e24, e23);
    var a28, e28 := Round256(IV256, 27, 0xbf59_7fc7, 0x3266_3c5b, a27, a26, a25, a24, e27, e26, e25, e24);
    var a29, e29 := Round256(IV256, 28, 0xc6e0_0bf3, 0x9d20_9d67, a28, a27, a26, a25, e28, e27, e26, e25);
    var a30, e30 := Round256(IV256, 29, 0xd5a7_9147, 0xec87_26cb, a29, a28, a27, a26, e29, e28, e27, e26);
    var a31, e31 := Round256(IV256, 30, 0x06ca_6351, 0x7021_38a4, a30, a29, a28, a27, e30, e29, e28, e27);
    var a32, e32 := Round256(IV256, 31, 0x1429_2967, 0xd3b7_973b, a31, a30, a29, a28, e31, e30, e29, e28);
  }

  lemma RoundsSHA256To48()
    ensures After256(IV256, 48) == Regs(0x4172_328d, 0xa14c_14b0, 0x72ab_4b91, 0x2662_8815, 0xfecf_0bc6,
        0xd57b_94a9, 0xb775_5da1, 0xa80f_11f0)
  {
    hide After256, W256, RoundConstant256;
    Constants256From32();
    Constants256From40();
    Words256From32();
    RoundsSHA256To32();
    var a33, e33 := Round256(IV256, 32, 0x27b7_0a85, 0x93f5_997f, 0x73b3_3bf5, 0xea99_2a22, 0xa006_0b30,
      0x3634_82c9, 0xba59_1112, 0x0109_ab3a, 0xade7_9437, 0x6112_a3b7);
    var a34, e34 := Round256(IV256, 33, 0x2e1b_2138, 0x3b68_ba73, a33, 0x73b3_3bf5, 0xea99_2a22, 0xa006_0b30, e33,
      0xba59_1112, 0x0109_ab3a, 0xade7_9437);
    var a35, e35 := Round256(IV256, 34, 0x4d2c_6dfc, 0xaff4_ffc1, a34, a33, 0x73b3_3bf5, 0xea99_2a22, e34, e33,
      0xba59_1112, 0x0109_ab3a);
    var a36, e36 := Round256(IV256, 35, 0x5338_0d13, 0xf10a_5c62, a35, a34, a33, 0x73b3_3bf5, e35, e34, e33,
      0xba59_1112);
    var a37, e37 := Round256(IV256, 36, 0x650a_7354, 0x0a8b_3996, a36, a35, a34, a33, e36, e35, e34, e33);
    var a38, e38 := Round256(IV256, 37, 0x766a_0abb, 0x72af_830a, a37, a36, a35, a34, e37, e36, e35, e34);
    var a39, e39 := Round256(IV256, 38, 0x81c2_c92e, 0x9409_e33e, a38, a37, a36, a35, e38, e37, e36, e35);
    var a40, e40 := Round256(IV256, 39, 0x9272_2c85, 0x2464_1522, a39, a38, a37, a36, e39, e38, e37, e36);
    var a41, e41 := Round256(IV256, 40, 0xa2bf_e8a1, 0x9f47_bf94, a40, a39, a38, a37, e40, e39, e38, e37);
    var a42, e42 := Round256(IV256, 41, 0xa81a_664b, 0xf0a6_4f5a, a41, a40, a39, a38, e41, e40, e39, e38);
    var a43, e43 := Round256(IV256, 42, 0xc24b_8b70, 0x3e24_6a79, a42, a41, a40, a39, e42, e41, e40, e39);
    var a44, e44 := Round256(IV256, 43, 0xc76c_51a3, 0x2733_3ba3, a43, a42, a41, a40, e43, e42, e41, e40);
    var a45, e45 := Round256(IV256, 44, 0xd192_e819, 0x0c47_63f2, a44, a43, a42, a41, e44, e43, e42, e41);
    var a46, e46 := Round256(IV256, 45, 0xd699_0624, 0x840a_bf27, a45, a44, a43, a42, e45, e44, e43, e42);
    var a47, e47 := Round256(IV256, 46, 0xf40e_3585, 0x7a29_0d5d, a46, a45, a44, a43, e46, e45, e44, e43);
    var a48, e48 := Round256(IV256, 47, 0x106a_a070, 0x065c_43da, a47, a46, a45, a44, e47, e46, e45, e44);
  }

  lemma RoundsSHA256To64()
    ensures After256(IV256, 64) == Regs(0x506e_3058, 0xd39a_2165, 0x04d2_4d6c, 0xb85e_2ce9, 0x5ef5_0f24,
        0xfb12_1210, 0x948d_25b6, 0x961f_4894)
  {
    hide After256, W256, RoundConstant256;
    Constants256From48();
    Constants256From56();
    Words256From48();
    RoundsSHA256To48();
    var a49, e49 := Round256(IV256, 48, 0x19a4_c116, 0xfb3e_89cb, 0x4172_328d, 0xa14c_14b0, 0x72ab_4b91,
      0x2662_8815, 0xfecf_0bc6, 0xd57b_94a9, 0xb775_5da1, 0xa80f_11f0);
    var a50, e50 := Round256(IV256, 49, 0x1e37_6c08, 0xcc76_17db, a49, 0x4172_328d, 0xa14c_14b0, 0x72ab_4b91, e49,
      0xfecf_0bc6, 0xd57b_94a9, 0xb775_5da1);
    var a51, e51 := Round256(IV256, 50, 0x2748_774c, 0xb9e6_6c34, a50, a49, 0x4172_328d, 0xa14c_14b0, e50, e49,
      0xfecf_0bc6, 0xd57b_94a9);
    var a52, e52 := Round256(IV256, 51, 0x34b0_bcb5, 0xa999_3667, a51, a50, a49, 0x4172_328d, e51, e50, e49,
      0xfecf_0bc6);
    var a53, e53 := Round256(IV256, 52, 0x391c_0cb3, 0x84ba_dedd, a52, a51, a50, a49, e52, e51, e50, e49);
    var a54, e54 := Round256(IV256, 53, 0x4ed8_aa4a, 0xc214_62bc, a53, a52, a51, a50, e53, e52, e51, e50);
    var a55, e55 := Round256(IV256, 54, 0x5b9c_ca4f, 0x1487_472c, a54, a53, a52, a51, e54, e53, e52, e51);
    var a56, e56 := Round256(IV256, 55, 0x682e_6ff3, 0xb20f_7a99, a55, a54, a53, a52, e55, e54, e53, e52);
    var a57, e57 := Round256(IV256, 56, 0x748f_82ee, 0xef57_b9cd, a56, a55, a54, a53, e56, e55, e54, e53);
    var a58, e58 := Round256(IV256, 57, 0x78a5_636f, 0xebe6_b238, a57, a56, a55, a54, e57, e56, e55, e54);
    var a59, e59 := Round256(IV256, 58, 0x84c8_7814, 0x9fe3_095e, a58, a57, a56, a55, e58, e57, e56, e55);
    var a60, e60 := Round256(IV256, 59, 0x8cc7_0208, 0x78bc_8d4b, a59, a58, a57, a56, e59, e58, e57, e56);
    var a61, e61 := Round256(IV256, 60, 0x90be_fffa, 0xa43f_cf15, a60, a59, a58, a57, e60, e59, e58, e57);
    var a62, e62 := Round256(IV256, 61, 0xa450_6ceb, 0x668b_2ff8, a61, a60, a59, a58, e61, e60, e59, e58);
    var a63, e63 := Round256(IV256, 62, 0xbef9_a3f7, 0xeeab_a2cc, a62, a61, a60, a59, e62, e61, e60, e59);
    var a64, e64 := Round256(IV256, 63, 0xc671_78f2, 0x12b1_edeb, a63, a62, a61, a60, e63, e62, e61, e60);
  }

  lemma StateSHA256()
    ensures Compress(Algebra256(), IV256, Abc256()) == Regs(0xba78_16bf, 0x8f01_cfea, 0x4141_40de, 0x5dae_2223,
        0xb003_61a3, 0x9617_7a9c, 0xb410_ff61, 0xf200_15ad)
  {
    hide Rounds;
    RoundsSHA256To64();
    SumSHA256();
    hide Add32;
  }

  lemma SumSHA256()
    ensures Add32(0x6a09_e667, 0x506e_3058) == 0xba78_16bf
    ensures Add32(0xbb67_ae85, 0xd39a_2165) == 0x8f01_cfea
    ensures Add32(0x3c6e_f372, 0x04d2_4d6c) == 0x4141_40de
    ensures Add32(0xa54f_f53a, 0xb85e_2ce9) == 0x5dae_2223
    ensures Add32(0x510e_527f, 0x5ef5_0f24) == 0xb003_61a3
    ensures Add32(0x9b05_688c, 0xfb12_1210) == 0x9617_7a9c
    ensures Add32(0x1f83_d9ab, 0x948d_25b6) == 0xb410_ff61
    ensures Add32(0x5be0_cd19, 0x961f_4894) == 0xf200_15ad
  {}

  /** The published digest of "abc". */
  lemma DigestSHA256OfAbc()
    ensures Digest(SHA256(), [0x61, 0x62, 0x63])
         == [0xba, 0x78, 0x16, 0xbf] + [0x8f, 0x01, 0xcf, 0xea] + [0x41, 0x41, 0x40, 0xde] +
            [0x5d, 0xae, 0x22, 0x23] + [0xb0, 0x03, 0x61, 0xa3] + [0x96, 0x17, 0x7a, 0x9c] +
            [0xb4, 0x10, 0xff, 0x61] + [0xf2, 0x00, 0x15, 0xad]
  {
    hide Compress, Compressor, WordBytes, Blocks, Padded, LengthField;
    Padded256();
    StateSHA256();
    OneBlock256(IV256);
    BytesSHA256();
    assert HashWords(Compress(Algebra256(), IV256, Abc256()))[..8] == [0xba78_16bf, 0x8f01_cfea, 0x4141_40de,
      0x5dae_2223, 0xb003_61a3, 0x9617_7a9c, 0xb410_ff61, 0xf200_15ad];
  }

  lemma BytesSHA256()
    ensures WordBytes(Algebra256(), [0xba78_16bf, 0x8f01_cfea, 0x4141_40de, 0x5dae_2223, 0xb003_61a3, 0x9617_7a9c,
        0xb410_ff61, 0xf200_15ad])
         == [0xba, 0x78, 0x16, 0xbf] + [0x8f, 0x01, 0xcf, 0xea] + [0x41, 0x41, 0x40, 0xde] +
            [0x5d, 0xae, 0x22, 0x23] + [0xb0, 0x03, 0x61, 0xa3] + [0x96, 0x17, 0x7a, 0x9c] +
            [0xb4, 0x10, 0xff, 0x61] + [0xf2, 0x00, 0x15, 0xad]
  {
    hide WordBytes, ToBigEndian32;
    WordsSHA256();
    BytesOf8(Algebra256(), 0xba78_16bf, 0x8f01_cfea, 0x4141_40de, 0x5dae_2223, 0xb003_61a3, 0x9617_7a9c,
      0xb410_ff61, 0xf200_15ad);
  }

  lemma WordsSHA256()
    ensures ToBigEndian32(0xba78_16bf) == [0xba, 0x78, 0x16, 0xbf]
    ensures ToBigEndian32(0x8f01_cfea) == [0x8f, 0x01, 0xcf, 0xea]
    ensures ToBigEndian32(0x4141_40de) == [0x41, 0x41, 0x40, 0xde]
    ensures ToBigEndian32(0x5dae_2223) == [0x5d, 0xae, 0x22, 0x23]
    ensures ToBigEndian32(0xb003_61a3) == [0xb0, 0x03, 0x61, 0xa3]
    ensures ToBigEndian32(0x9617_7a9c) == [0x96, 0x17, 0x7a, 0x9c]
    ensures ToBigEndian32(0xb410_ff61) == [0xb4, 0x10, 0xff, 0x61]
    ensures ToBigEndian32(0xf200_15ad) == [0xf2, 0x00, 0x15, 0xad]
  {}

  // ----- 64-bit words

  function T1Of512(e: bv64, f: bv64, g: bv64, h: bv64, k: bv64, w: bv64): bv64 {
    Add64(Add64(Add64(Add64(h, BigSigma1For512(e)), Ch64(e, f, g)), k), w)
  }

  function T2Of512(a: bv64, x: bv64, c: bv64): bv64 {
    Add64(BigSigma0For512(a), Maj64(a, x, c))
  }

  /** The message "abc", padded, its schedule, and its rounds from an initial value. */
  function Abc512(): (s: seq<bv8>)
    ensures |s| == 128
  {
    [0x61, 0x62, 0x63, 0x80] + Zeros(123) + [0x18]
  }

  function W512(t: nat): bv64 {
    Schedule(Algebra512(), Abc512(), t)
  }

  function After512(iv: Regs<bv64>, t: nat): Regs<bv64>
    requires t <= 80
  {
    Rounds(Algebra512(), iv, Abc512(), t)
  }

  /** One round on known registers. */
  lemma Round512(iv: Regs<bv64>, t: nat, k: bv64, w: bv64,
                  a: bv64, x: bv64, c: bv64, d: bv64, e: bv64, f: bv64, g: bv64, h: bv64)
    returns (a': bv64, e': bv64)
    requires t < 80 && After512(iv, t) == Regs(a, x, c, d, e, f, g, h)
    requires RoundConstant512(t) == k && W512(t) == w
    ensures a' == Add64(T1Of512(e, f, g, h, k, w), T2Of512(a, x, c)) && e' == Add64(d, T1Of512(e, f, g, h, k, w))
    ensures After512(iv, t + 1) == Regs(a', a, x, c, e', e, f, g)
  {
    hide Add64, Ch64, Maj64, BigSigma0For512, BigSigma1For512, Schedule, RoundConstant512;
    a', e' := Add64(T1Of512(e, f, g, h, k, w), T2Of512(a, x, c)), Add64(d, T1Of512(e, f, g, h, k, w));
  }

  /** One word of the schedule from known ones. */
  lemma Word512(t: nat, w2: bv64, w7: bv64, w15: bv64, w16: bv64) returns (w: bv64)
    requires t >= 16 && W512(t - 2) == w2 && W512(t - 7) == w7 && W512(t - 15) == w15 && W512(t - 16) == w16
    ensures w == Add64(Add64(Add64(Sigma1For512(w2), w7), Sigma0For512(w15)), w16) && W512(t) == w
  {
    hide Add64, Sigma0For512, Sigma1For512;
    w := Add64(Add64(Add64(Sigma1For512(w2), w7), Sigma0For512(w15)), w16);
  }

  lemma Words512From0()
    ensures W512(0) == 0x6162_6380_0000_0000 && W512(1) == 0x0000_0000_0000_0000 && W512(2) == 0x0000_0000_0000_0000
    ensures W512(3) == 0x0000_0000_0000_0000 && W512(4) == 0x0000_0000_0000_0000 && W512(5) == 0x0000_0000_0000_0000
    ensures W512(6) == 0x0000_0000_0000_0000 && W512(7) == 0x0000_0000_0000_0000 && W512(8) == 0x0000_0000_0000_0000
    ensures W512(9) == 0x0000_0000_0000_0000 && W512(10) == 0x0000_0000_0000_0000
    ensures W512(11) == 0x0000_0000_0000_0000 && W512(12) == 0x0000_0000_0000_0000
    ensures W512(13) == 0x0000_0000_0000_0000 && W512(14) == 0x0000_0000_0000_0000
    ensures W512(15) == 0x0000_0000_0000_0018
  {
    hide W512;
    FirstWord512();
    LastWord512();
    ZeroWord512(1);
    ZeroWord512(2);
    ZeroWord512(3);
    ZeroWord512(4);
    ZeroWord512(5);
    ZeroWord512(6);
    ZeroWord512(7);
    ZeroWord512(8);
    ZeroWord512(9);
    ZeroWord512(10);
    ZeroWord512(11);
    ZeroWord512(12);
    ZeroWord512(13);
    ZeroWord512(14);
  }

  lemma FirstWord512()
    ensures W512(0) == 0x6162_6380_0000_0000
  {
    hide BigEndian64;
    WordsAre512();
    assert Abc512()[..8] == [0x61, 0x62, 0x63, 0x80, 0, 0, 0, 0];
  }

  lemma LastWord512()
    ensures W512(15) == 0x0000_0000_0000_0018
  {
    hide BigEndian64;
    WordsAre512();
    var s := Abc512()[120..128];
    assert s == [0, 0, 0, 0, 0, 0, 0, 0x18];
    assert BlockWord(Algebra512(), Abc512(), 15) == BigEndian64(s);
  }

  lemma ZeroWord512(t: nat)
    requires 1 <= t < 15
    ensures W512(t) == 0
  {
    hide BigEndian64;
    WordsAre512();
    var s := Abc512()[t * 8..(t + 1) * 8];
    assert s == Zeros(8);
    assert BlockWord(Algebra512(), Abc512(), t) == BigEndian64(s);
  }

  lemma WordsAre512()
    ensures BigEndian64([0x61, 0x62, 0x63, 0x80, 0, 0, 0, 0]) == 0x6162_6380_0000_0000
    ensures BigEndian64([0, 0, 0, 0, 0, 0, 0, 0x18]) == 0x0000_0000_0000_0018 && BigEndian64(Zeros(8)) == 0
  {}

  lemma Words512From16()
    ensures W512(16) == 0x6162_6380_0000_0000 && W512(17) == 0x0003_0000_0000_00c0
    ensures W512(18) == 0x0a96_99a2_4c70_0003 && W512(19) == 0x0000_0c00_6000_0603
    ensures W512(20) == 0x549e_f626_3985_8996 && W512(21) == 0x00c0_0033_0000_3c00
    ensures W512(22) == 0x1497_007a_8a0e_9dbc && W512(23) == 0x62e5_6500_cc07_80f0
    ensures W512(24) == 0x7760_dd47_5a53_8797 && W512(25) == 0xf155_4b71_1c1c_0003
    ensures W512(26) == 0xca29_93a4_345d_9ff2 && W512(27) == 0x5e0e_66b5_c783_dd32
    ensures W512(28) == 0xe25a_625d_0049_4b62 && W512(29) == 0x9f44_486f_b1e4_fbd2
    ensures W512(30) == 0xb31b_8c2b_0608_5f2f && W512(31) == 0x0e98_7660_9341_42f6
  {
    hide W512;
    Words512From0();
    var w16 := Word512(16, 0x0000_0000_0000_0000, 0x0000_0000_0000_0000, 0x0000_0000_0000_0000,
      0x6162_6380_0000_0000);
    var w17 := Word512(17, 0x0000_0000_0000_0018, 0x0000_0000_0000_0000, 0x0000_0000_0000_0000,
      0x0000_0000_0000_0000);
    var w18 := Word512(18, w16, 0x0000_0000_0000_0000, 0x0000_0000_0000_0000, 0x0000_0000_0000_0000);
    var w19 := Word512(19, w17, 0x0000_0000_0000_0000, 0x0000_0000_0000_0000, 0x0000_0000_0000_0000);
    var w20 := Word512(20, w18, 0x0000_0000_0000_0000, 0x0000_0000_0000_0000, 0x0000_0000_0000_0000);
    var w21 := Word512(21, w19, 0x0000_0000_0000_0000, 0x0000_0000_0000_0000, 0x0000_0000_0000_0000);
    var w22 := Word512(22, w20, 0x0000_0000_0000_0018, 0x0000_0000_0000_0000, 0x0000_0000_0000_0000);
    var w23 := Word512(23, w21, w16, 0x0000_0000_0000_0000, 0x0000_0000_0000_0000);
    var w24 := Word512(24, w22, w17, 0x0000_0000_0000_0000, 0x0000_0000_0000_0000);
    var w25 := Word512(25, w23, w18, 0x0000_0000_0000_0000, 0x0000_0000_0000_0000);
    var w26 := Word512(26, w24, w19, 0x0000_0000_0000_0000, 0x0000_0000_0000_0000);
    var w27 := Word512(27, w25, w20, 0x0000_0000_0000_0000, 0x0000_0000_0000_0000);
    var w28 := Word512(28, w26, w21, 0x0000_0000_0000_0000, 0x0000_0000_0000_0000);
    var w29 := Word512(29, w27, w22, 0x0000_0000_0000_0000, 0x0000_0000_0000_0000);
    var w30 := Word512(30, w28, w23, 0x0000_0000_0000_0018, 0x0000_0000_0000_0000);
    var w31 := Word512(31, w29, w24, w16, 0x0000_0000_0000_0018);
  }

  lemma Words512From32()
    ensures W512(32) == 0xa4af_2cfd_09fb_b924 && W512(33) == 0xad28_9e2e_0bd5_3186
    ensures W512(34) == 0x3c74_563a_a2f9_673e && W512(35) == 0x6ccd_cd14_cc14_b53f
    ensures W512(36) == 0xc3f9_25b3_37f2_2bde && W512(37) == 0x5bcc_77a7_5ad9_5b54
    ensures W512(38) == 0x3ec2_257a_dca0_9a52 && W512(39) == 0x2824_6960_001f_c5eb
    ensures W512(40) == 0x04e3_3a75_ce2b_e88a && W512(41) == 0x7d53_14b3_c359_e0e7
    ensures W512(42) == 0xaef7_a285_ff25_1266 && W512(43) == 0x0b84_7258_1dee_a04f
    ensures W512(44) == 0xb174_e26e_ddc7_b033 && W512(45) == 0x5d63_bae5_8ddd_88de
    ensures W512(46) == 0x4c04_4007_b744_ccbb && W512(47) == 0xe6a9_aa4d_74dc_7d43
  {
    hide W512;
    Words512From16();
    var w32 := Word512(32, 0xb31b_8c2b_0608_5f2f, 0xf155_4b71_1c1c_0003, 0x0003_0000_0000_00c0,
      0x6162_6380_0000_0000);
    var w33 := Word512(33, 0x0e98_7660_9341_42f6, 0xca29_93a4_345d_9ff2, 0x0a96_99a2_4c70_0003,
      0x0003_0000_0000_00c0);
    var w34 := Word512(34, w32, 0x5e0e_66b5_c783_dd32, 0x0000_0c00_6000_0603, 0x0a96_99a2_4c70_0003);
    var w35 := Word512(35, w33, 0xe25a_625d_0049_4b62, 0x549e_f626_3985_8996, 0x0000_0c00_6000_0603);
    var w36 := Word512(36, w34, 0x9f44_486f_b1e4_fbd2, 0x00c0_0033_0000_3c00, 0x549e_f626_3985_8996);
    var w37 := Word512(37, w35, 0xb31b_8c2b_0608_5f2f, 0x1497_007a_8a0e_9dbc, 0x00c0_0033_0000_3c00);
    var w38 := Word512(38, w36, 0x0e98_7660_9341_42f6, 0x62e5_6500_cc07_80f0, 0x1497_007a_8a0e_9dbc);
    var w39 := Word512(39, w37, w32, 0x7760_dd47_5a53_8797, 0x62e5_6500_cc07_80f0);
    var w40 := Word512(40, w38, w33, 0xf155_4b71_1c1c_0003, 0x7760_dd47_5a53_8797);
    var w41 := Word512(41, w39, w34, 0xca29_93a4_345d_9ff2, 0xf155_4b71_1c1c_0003);
    var w42 := Word512(42, w40, w35, 0x5e0e_66b5_c783_dd32, 0xca29_93a4_345d_9ff2);
    var w43 := Word512(43, w41, w36, 0xe25a_625d_0049_4b62, 0x5e0e_66b5_c783_dd32);
    var w44 := Word512(44, w42, w37, 0x9f44_486f_b1e4_fbd2, 0xe25a_625d_0049_4b62);
    var w45 := Word512(45, w43, w38, 0xb31b_8c2b_0608_5f2f, 0x9f44_486f_b1e4_fbd2);
    var w46 := Word512(46, w44, w39, 0x0e98_7660_9341_42f6, 0xb31b_8c2b_0608_5f2f);
    var w47 := Word512(47, w45, w40, w32, 0x0e98_7660_9341_42f6);
  }

  lemma Words512From48()
    ensures W512(48) == 0xebea_f123_7248_019c && W512(49) == 0x361e_80b2_d00f_3193
    ensures W512(50) == 0x2e98_3912_5df3_b175 && W512(51) == 0x3319_6292_93ad_5363
    ensures W512(52) == 0x9cbc_5d89_ac1b_89d5 && W512(53) == 0x275e_23ff_eeca_50b7
    ensures W512(54) == 0x3b80_d680_bf69_ef58 && W512(55) == 0x0d06_9693_3945_a125
    ensures W512(56) == 0x7533_eabc_b786_ff00 && W512(57) == 0xb898_26ce_e6fb_f0e5
    ensures W512(58) == 0x249b_4fbc_ad62_3e9f && W512(59) == 0x4aea_9df2_b02d_6f1e
    ensures W512(60) == 0x2cc5_7475_a55e_8d8f && W512(61) == 0xb257_4ae9_38d8_be89
    ensures W512(62) == 0xc1b3_5a57_b16d_6aea && W512(63) == 0xcc49_18b5_9492_06bb
  {
    hide W512;
    Words512From32();
    var w48 := Word512(48, 0x4c04_4007_b744_ccbb, 0x7d53_14b3_c359_e0e7, 0xad28_9e2e_0bd5_3186,
      0xa4af_2cfd_09fb_b924);
    var w49 := Word512(49, 0xe6a9_aa4d_74dc_7d43, 0xaef7_a285_ff25_1266, 0x3c74_563a_a2f9_673e,
      0xad28_9e2e_0bd5_3186);
    var w50 := Word512(50, w48, 0x0b84_7258_1dee_a04f, 0x6ccd_cd14_cc14_b53f, 0x3c74_563a_a2f9_673e);
    var w51 := Word512(51, w49, 0xb174_e26e_ddc7_b033, 0xc3f9_25b3_37f2_2bde, 0x6ccd_cd14_cc14_b53f);
    var w52 := Word512(52, w50, 0x5d63_bae5_8ddd_88de, 0x5bcc_77a7_5ad9_5b54, 0xc3f9_25b3_37f2_2bde);
    var w53 := Word512(53, w51, 0x4c04_4007_b744_ccbb, 0x3ec2_257a_dca0_9a52, 0x5bcc_77a7_5ad9_5b54);
    var w54 := Word512(54, w52, 0xe6a9_aa4d_74dc_7d43, 0x2824_6960_001f_c5eb, 0x3ec2_257a_dca0_9a52);
    var w55 := Word512(55, w53, w48, 0x04e3_3a75_ce2b_e88a, 0x2824_6960_001f_c5eb);
    var w56 := Word512(56, w54, w49, 0x7d53_14b3_c359_e0e7, 0x04e3_3a75_ce2b_e88a);
    var w57 := Word512(57, w55, w50, 0xaef7_a285_ff25_1266, 0x7d53_14b3_c359_e0e7);
    var w58 := Word512(58, w56, w51, 0x0b84_7258_1dee_a04f, 0xaef7_a285_ff25_1266);
    var w59 := Word512(59, w57, w52, 0xb174_e26e_ddc7_b033, 0x0b84_7258_1dee_a04f);
    var w60 := Word512(60, w58, w53, 0x5d63_bae5_8ddd_88de, 0xb174_e26e_ddc7_b033);
    var w61 := Word512(61, w59, w54, 0x4c04_4007_b744_ccbb, 0x5d63_bae5_8ddd_88de);
    var w62 := Word512(62, w60, w55, 0xe6a9_aa4d_74dc_7d43, 0x4c04_4007_b744_ccbb);
    var w63 := Word512(63, w61, w56, w48, 0xe6a9_aa4d_74dc_7d43);
  }

  lemma Words512From64()
    ensures W512(64) == 0x5099_c3ad_d79f_90ec && W512(65) == 0x5ea8_1d78_e766_0bf1
    ensures W512(66) == 0xebee_6267_405a_c2a9 && W512(67) == 0xb01f_2192_6108_a4ab
    ensures W512(68) == 0x7864_33dd_2fe6_5556 && W512(69) == 0xc54a_6eaa_24a0_552c
    ensures W512(70) == 0xb3c8_f153_0bdb_aa9e && W512(71) == 0xbb8a_bfe5_6f46_9338
    ensures W512(72) == 0xf63d_4265_cc1c_5a78 && W512(73) == 0xbe83_55ea_7312_9afb
    ensures W512(74) == 0x49e2_db8e_bdcf_beb5 && W512(75) == 0x8226_9d4a_883a_3d99
    ensures W512(76) == 0xfdf5_3df3_011f_362b && W512(77) == 0x464a_f567_1d71_c12e
    ensures W512(78) == 0xe449_b681_98ec_611c && W512(79) == 0x92ae_eed1_a7bc_f7d2
  {
    hide W512;
    Words512From48();
    var w64 := Word512(64, 0xc1b3_5a57_b16d_6aea, 0xb898_26ce_e6fb_f0e5, 0x361e_80b2_d00f_3193,
      0xebea_f123_7248_019c);
    var w65 := Word512(65, 0xcc49_18b5_9492_06bb, 0x249b_4fbc_ad62_3e9f, 0x2e98_3912_5df3_b175,
      0x361e_80b2_d00f_3193);
    var w66 := Word512(66, w64, 0x4aea_9df2_b02d_6f1e, 0x3319_6292_93ad_5363, 0x2e98_3912_5df3_b175);
    var w67 := Word512(67, w65, 0x2cc5_7475_a55e_8d8f, 0x9cbc_5d89_ac1b_89d5, 0x3319_6292_93ad_5363);
    var w68 := Word512(68, w66, 0xb257_4ae9_38d8_be89, 0x275e_23ff_eeca_50b7, 0x9cbc_5d89_ac1b_89d5);
    var w69 := Word512(69, w67, 0xc1b3_5a57_b16d_6aea, 0x3b80_d680_bf69_ef58, 0x275e_23ff_eeca_50b7);
    var w70 := Word512(70, w68, 0xcc49_18b5_9492_06bb, 0x0d06_9693_3945_a125, 0x3b80_d680_bf69_ef58);
    var w71 := Word512(71, w69, w64, 0x7533_eabc_b786_ff00, 0x0d06_9693_3945_a125);
    var w72 := Word512(72, w70, w65, 0xb898_26ce_e6fb_f0e5, 0x7533_eabc_b786_ff00);
    var w73 := Word512(73, w71, w66, 0x249b_4fbc_ad62_3e9f, 0xb898_26ce_e6fb_f0e5);
    var w74 := Word512(74, w72, w67, 0x4aea_9df2_b02d_6f1e, 0x249b_4fbc_ad62_3e9f);
    var w75 := Word512(75, w73, w68, 0x2cc5_7475_a55e_8d8f, 0x4aea_9df2_b02d_6f1e);
    var w76 := Word512(76, w74, w69, 0xb257_4ae9_38d8_be89, 0x2cc5_7475_a55e_8d8f);
    var w77 := Word512(77, w75, w70, 0xc1b3_5a57_b16d_6aea, 0xb257_4ae9_38d8_be89);
    var w78 := Word512(78, w76, w71, 0xcc49_18b5_9492_06bb, 0xc1b3_5a57_b16d_6aea);
    var w79 := Word512(79, w77, w72, w64, 0xcc49_18b5_9492_06bb);
  }

  lemma Constants512From0()
    ensures RoundConstant512(0) == 0x428a_2f98_d728_ae22 && RoundConstant512(1) == 0x7137_4491_23ef_65cd
    ensures RoundConstant512(2) == 0xb5c0_fbcf_ec4d_3b2f && RoundConstant512(3) == 0xe9b5_dba5_8189_dbbc
    ensures RoundConstant512(4) == 0x3956_c25b_f348_b538 && RoundConstant512(5) == 0x59f1_11f1_b605_d019
    ensures RoundConstant512(6) == 0x923f_82a4_af19_4f9b && RoundConstant512(7) == 0xab1c_5ed5_da6d_8118
  {}

  lemma Constants512From8()
    ensures RoundConstant512(8) == 0xd807_aa98_a303_0242 && RoundConstant512(9) == 0x1283_5b01_4570_6fbe
    ensures RoundConstant512(10) == 0x2431_85be_4ee4_b28c && RoundConstant512(11) == 0x550c_7dc3_d5ff_b4e2
    ensures RoundConstant512(12) == 0x72be_5d74_f27b_896f && RoundConstant512(13) == 0x80de_b1fe_3b16_96b1
    ensures RoundConstant512(14) == 0x9bdc_06a7_25c7_1235 && RoundConstant512(15) == 0xc19b_f174_cf69_2694
  {}

  lemma Constants512From16()
    ensures RoundConstant512(16) == 0xe49b_69c1_9ef1_4ad2 && RoundConstant512(17) == 0xefbe_4786_384f_25e3
    ensures RoundConstant512(18) == 0x0fc1_9dc6_8b8c_d5b5 && RoundConstant512(19) == 0x240c_a1cc_77ac_9c65
    ensures RoundConstant512(20) == 0x2de9_2c6f_592b_0275 && RoundConstant512(21) == 0x4a74_84aa_6ea6_e483
    ensures RoundConstant512(22) == 0x5cb0_a9dc_bd41_fbd4 && RoundConstant512(23) == 0x76f9_88da_8311_53b5
  {}

  lemma Constants512From24()
    ensures RoundConstant512(24) == 0x983e_5152_ee66_dfab && RoundConstant512(25) == 0xa831_c66d_2db4_3210
    ensures RoundConstant512(26) == 0xb003_27c8_98fb_213f && RoundConstant512(27) == 0xbf59_7fc7_beef_0ee4
    ensures RoundConstant512(28) == 0xc6e0_0bf3_3da8_8fc2 && RoundConstant512(29) == 0xd5a7_9147_930a_a725
    ensures RoundConstant512(30) == 0x06ca_6351_e003_826f && RoundConstant512(31) == 0x1429_2967_0a0e_6e70
  {}

  lemma Constants512From32()
    ensures RoundConstant512(32) == 0x27b7_0a85_46d2_2ffc && RoundConstant512(33) == 0x2e1b_2138_5c26_c926
    ensures RoundConstant512(34) == 0x4d2c_6dfc_5ac4_2aed && RoundConstant512(35) == 0x5338_0d13_9d95_b3df
    ensures RoundConstant512(36) == 0x650a_7354_8baf_63de && RoundConstant512(37) == 0x766a_0abb_3c77_b2a8
    ensures RoundConstant512(38) == 0x81c2_c92e_47ed_aee6 && RoundConstant512(39) == 0x9272_2c85_1482_353b
  {}

  lemma Constants512From40()
    ensures RoundConstant512(40) == 0xa2bf_e8a1_4cf1_0364 && RoundConstant512(41) == 0xa81a_664b_bc42_3001
    ensures RoundConstant512(42) == 0xc24b_8b70_d0f8_9791 && RoundConstant512(43) == 0xc76c_51a3_0654_be30
    ensures RoundConstant512(44) == 0xd192_e819_d6ef_5218 && RoundConstant512(45) == 0xd699_0624_5565_a910
    ensures RoundConstant512(46) == 0xf40e_3585_5771_202a && RoundConstant512(47) == 0x106a_a070_32bb_d1b8
  {}

  lemma Constants512From48()
    ensures RoundConstant512(48) == 0x19a4_c116_b8d2_d0c8 && RoundConstant512(49) == 0x1e37_6c08_5141_ab53
    ensures RoundConstant512(50) == 0x2748_774c_df8e_eb99 && RoundConstant512(51) == 0x34b0_bcb5_e19b_48a8
    ensures RoundConstant512(52) == 0x391c_0cb3_c5c9_5a63 && RoundConstant512(53) == 0x4ed8_aa4a_e341_8acb
    ensures RoundConstant512(54) == 0x5b9c_ca4f_7763_e373 && RoundConstant512(55) == 0x682e_6ff3_d6b2_b8a3
  {}

  lemma Constants512From56()
    ensures RoundConstant512(56) == 0x748f_82ee_5def_b2fc && RoundConstant512(57) == 0x78a5_636f_4317_2f60
    ensures RoundConstant512(58) == 0x84c8_7814_a1f0_ab72 && RoundConstant512(59) == 0x8cc7_0208_1a64_39ec
    ensures RoundConstant512(60) == 0x90be_fffa_2363_1e28 && RoundConstant512(61) == 0xa450_6ceb_de82_bde9
    ensures RoundConstant512(62) == 0xbef9_a3f7_b2c6_7915 && RoundConstant512(63) == 0xc671_78f2_e372_532b
  {}

  lemma Constants512From64()
    ensures RoundConstant512(64) == 0xca27_3ece_ea26_619c && RoundConstant512(65) == 0xd186_b8c7_21c0_c207
    ensures RoundConstant512(66) == 0xeada_7dd6_cde0_eb1e && RoundConstant512(67) == 0xf57d_4f7f_ee6e_d178
    ensures RoundConstant512(68) == 0x06f0_67aa_7217_6fba && RoundConstant512(69) == 0x0a63_7dc5_a2c8_98a6
    ensures RoundConstant512(70) == 0x113f_9804_bef9_0dae && RoundConstant512(71) == 0x1b71_0b35_131c_471b
  {}

  lemma Constants512From72()
    ensures RoundConstant512(72) == 0x28db_77f5_2304_7d84 && RoundConstant512(73) == 0x32ca_ab7b_40c7_2493
    ensures RoundConstant512(74) == 0x3c9e_be0a_15c9_bebc && RoundConstant512(75) == 0x431d_67c4_9c10_0d4c
    ensures RoundConstant512(76) == 0x4cc5_d4be_cb3e_42b6 && RoundConstant512(77) == 0x597f_299c_fc65_7e2a
    ensures RoundConstant512(78) == 0x5fcb_6fab_3ad6_faec && RoundConstant512(79) == 0x6c44_198c_4a47_5817
  {}

  lemma Before512(iv: Regs<bv64>)
    ensures After512(iv, 0) == iv
  {}

  lemma RoundCount512()
    ensures Algebra512().rounds == 80 && BlockBytes(Algebra512()) == 128
  {}

  lemma Padded512()
    ensures Padded(128, [0x61, 0x62, 0x63], LengthField(true, 3)) == Abc512()
  {
    LengthIs24(true);
    PadZerosByRest(128, 16, 3);
  }

  lemma OneBlock512(iv: Regs<bv64>)
    ensures Blocks(Compressor(Algebra512()), 128, iv, Abc512()) == Compress(Algebra512(), iv, Abc512())
  {
    hide Compress, Compressor, Blocks;
    RoundCount512();
    CompressorCompresses(Algebra512(), iv, Abc512());
    OneBlockOf(Compressor(Algebra512()), 128, iv, Abc512());
  }

  lemma RoundsSHA512To16()
    ensures After512(IV512, 16) == Regs(0x0ae0_7c86_b118_1c75, 0xfa96_7eed_85a0_8028, 0x4424_9631_255d_2ca0,
        0x5e41_2143_8818_6c14, 0xa77b_7c03_5dd4_c161, 0x874b_fe5f_6aae_9f2f, 0x860a_cf9e_ffba_6f61,
        0xcdf3_bff2_883f_c9d9)
  {
    hide After512, W512, RoundConstant512;
    Constants512From0();
    Constants512From8();
    Words512From0();
    Before512(IV512);
    var a1, e1 := Round512(IV512, 0, 0x428a_2f98_d728_ae22, 0x6162_6380_0000_0000, 0x6a09_e667_f3bc_c908,
      0xbb67_ae85_84ca_a73b, 0x3c6e_f372_fe94_f82b, 0xa54f_f53a_5f1d_36f1, 0x510e_527f_ade6_82d1,
      0x9b05_688c_2b3e_6c1f, 0x1f83_d9ab_fb41_bd6b, 0x5be0_cd19_137e_2179);
    var a2, e2 := Round512(IV512, 1, 0x7137_4491_23ef_65cd, 0x0000_0000_0000_0000, a1, 0x6a09_e667_f3bc_c908,
      0xbb67_ae85_84ca_a73b, 0x3c6e_f372_fe94_f82b, e1, 0x510e_527f_ade6_82d1, 0x9b05_688c_2b3e_6c1f,
      0x1f83_d9ab_fb41_bd6b);
    var a3, e3 := Round512(IV512, 2, 0xb5c0_fbcf_ec4d_3b2f, 0x0000_0000_0000_0000, a2, a1, 0x6a09_e667_f3bc_c908,
      0xbb67_ae85_84ca_a73b, e2, e1, 0x510e_527f_ade6_82d1, 0x9b05_688c_2b3e_6c1f);
    var a4, e4 := Round512(IV512, 3, 0xe9b5_dba5_8189_dbbc, 0x0000_0000_0000_0000, a3, a2, a1,
      0x6a09_e667_f3bc_c908, e3, e2, e1, 0x510e_527f_ade6_82d1);
    var a5, e5 := Round512(IV512, 4, 0x3956_c25b_f348_b538, 0x0000_0000_0000_0000, a4, a3, a2, a1, e4, e3, e2, e1);
    var a6, e6 := Round512(IV512, 5, 0x59f1_11f1_b605_d019, 0x0000_0000_0000_0000, a5, a4, a3, a2, e5, e4, e3, e2);
    var a7, e7 := Round512(IV512, 6, 0x923f_82a4_af19_4f9b, 0x0000_0000_0000_0000, a6, a5, a4, a3, e6, e5, e4, e3);
    var a8, e8 := Round512(IV512, 7, 0xab1c_5ed5_da6d_8118, 0x0000_0000_0000_0000, a7, a6, a5, a4, e7, e6, e5, e4);
    var a9, e9 := Round512(IV512, 8, 0xd807_aa98_a303_0242, 0x0000_0000_0000_0000, a8, a7, a6, a5, e8, e7, e6, e5);
    var a10, e10 := Round512(IV512, 9, 0x1283_5b01_4570_6fbe, 0x0000_0000_0000_0000, a9, a8, a7, a6, e9, e8, e7, e6);
    var a11, e11 := Round512(IV512, 10, 0x2431_85be_4ee4_b28c, 0x0000_0000_0000_0000, a10, a9, a8, a7, e10, e9, e8,
      e7);
    var a12, e12 := Round512(IV512, 11, 0x550c_7dc3_d5ff_b4e2, 0x0000_0000_0000_0000, a11, a10, a9, a8, e11, e10,
      e9, e8);
    var a13, e13 := Round512(IV512, 12, 0x72be_5d74_f27b_896f, 0x0000_0000_0000_0000, a12, a11, a10, a9, e12, e11,
      e10, e9);
    var a14, e14 := Round512(IV512, 13, 0x80de_b1fe_3b16_96b1, 0x0000_0000_0000_0000, a13, a12, a11, a10, e13, e12,
      e11, e10);
    var a15, e15 := Round512(IV512, 14, 0x9bdc_06a7_25c7_1235, 0x0000_0000_0000_0000, a14, a13, a12, a11, e14, e13,
      e12, e11);
    var a16, e16 := Round512(IV512, 15, 0xc19b_f174_cf69_2694, 0x0000_0000_0000_0018, a15, a14, a13, a12, e15, e14,
      e13, e12);
  }

  lemma RoundsSHA512To32()
    ensures After512(IV512, 32) == Regs(0xff4d_3f1f_0d46_a736, 0x4c4f_bbb7_5f18_73a6, 0x74bf_40f8_6909_4c63,
        0xe623_4909_0f47_d30a, 0x3cd3_88e1_19e8_162e, 0x73e0_25d9_1b9e_fea3, 0xf0ae_c2fe_1437_f085,
        0x0fcd_f997_10f2_1584)
  {
    hide After512, W512, RoundConstant512;
    Constants512From16();
    Constants512From24();
    Words512From16();
    RoundsSHA512To16();
    var a17, e17 := Round512(IV512, 16, 0xe49b_69c1_9ef1_4ad2, 0x6162_6380_0000_0000, 0x0ae0_7c86_b118_1c75,
      0xfa96_7eed_85a0_8028, 0x4424_9631_255d_2ca0, 0x5e41_2143_8818_6c14, 0xa77b_7c03_5dd4_c161,
      0x874b_fe5f_6aae_9f2f, 0x860a_cf9e_ffba_6f61, 0xcdf3_bff2_883f_c9d9);
    var a18, e18 := Round512(IV512, 17, 0xefbe_4786_384f_25e3, 0x0003_0000_0000_00c0, a17, 0x0ae0_7c86_b118_1c75,
      0xfa96_7eed_85a0_8028, 0x4424_9631_255d_2ca0, e17, 0xa77b_7c03_5dd4_c161, 0x874b_fe5f_6aae_9f2f,
      0x860a_cf9e_ffba_6f61);
    var a19, e19 := Round512(IV512, 18, 0x0fc1_9dc6_8b8c_d5b5, 0x0a96_99a2_4c70_0003, a18, a17,
      0x0ae0_7c86_b118_1c75, 0xfa96_7eed_85a0_8028, e18, e17, 0xa77b_7c03_5dd4_c161, 0x874b_fe5f_6aae_9f2f);
    var a20, e20 := Round512(IV512, 19, 0x240c_a1cc_77ac_9c65, 0x0000_0c00_6000_0603, a19, a18, a17,
      0x0ae0_7c86_b118_1c75, e19, e18, e17, 0xa77b_7c03_5dd4_c161);
    var a21, e21 := Round512(IV512, 20, 0x2de9_2c6f_592b_0275, 0x549e_f626_3985_8996, a20, a19, a18, a17, e20, e19,
      e18, e17);
    var a22, e22 := Round512(IV512, 21, 0x4a74_84aa_6ea6_e483, 0x00c0_0033_0000_3c00, a21, a20, a19, a18, e21, e20,
      e19, e18);
    var a23, e23 := Round512(IV512, 22, 0x5cb0_a9dc_bd41_fbd4, 0x1497_007a_8a0e_9dbc, a22, a21, a20, a19, e22, e21,
      e20, e19);
    var a24, e24 := Round512(IV512, 23, 0x76f9_88da_8311_53b5, 0x62e5_6500_cc07_80f0, a23, a22, a21, a20, e23, e22,
      e21, e20);
    var a25, e25 := Round512(IV512, 24, 0x983e_5152_ee66_dfab, 0x7760_dd47_5a53_8797, a24, a23, a22, a21, e24, e23,
      e22, e21);
    var a26, e26 := Round512(IV512, 25, 0xa831_c66d_2db4_3210, 0xf155_4b71_1c1c_0003, a25, a24, a23, a22, e25, e24,
      e23, e22);
    var a27, e27 := Round512(IV512, 26, 0xb003_27c8_98fb_213f, 0xca29_93a4_345d_9ff2, a26, a25, a24, a23, e26, e25,
      e24, e23);
    var a28, e28 := Round512(IV512, 27, 0xbf59_7fc7_beef_0ee4, 0x5e0e_66b5_c783_dd32, a27, a26, a25, a24, e27, e26,
      e25, e24);
    var a29, e29 := Round512(IV512, 28, 0xc6e0_0bf3_3da8_8fc2, 0xe25a_625d_0049_4b62, a28, a27, a26, a25, e28, e27,
      e26, e25);
    var a30, e30 := Round512(IV512, 29, 0xd5a7_9147_930a_a725, 0x9f44_486f_b1e4_fbd2, a29, a28, a27, a26, e29, e28,
      e27, e26);
    var a31, e31 := Round512(IV512, 30, 0x06ca_6351_e003_826f, 0xb31b_8c2b_0608_5f2f, a30, a29, a28, a27, e30, e29,
      e28, e27);
    var a32, e32 := Round512(IV512, 31, 0x1429_2967_0a0e_6e70, 0x0e98_7660_9341_42f6, a31, a30, a29, a28, e31, e30,
      e29, e28);
  }

  lemma RoundsSHA512To48()
    ensures After512(IV512, 48) == Regs(0x6b69_fc1b_b482_feac, 0xf61e_6726_94de_2d67, 0x021f_badb_abab_5ac6,
        0xc47c_9d5c_7ea8_a234, 0x3526_4334_c03a_c8ad, 0xc6bc_3574_0d8d_aa9a, 0xe95c_2a57_572d_64d9,
        0x858d_832a_e0e8_911c)
  {
    hide After512, W512, RoundConstant512;
    Constants512From32();
    Constants512From40();
    Words512From32();
    RoundsSHA512To32();
    var a33, e33 := Round512(IV512, 32, 0x27b7_0a85_46d2_2ffc, 0xa4af_2cfd_09fb_b924, 0xff4d_3f1f_0d46_a736,
      0x4c4f_bbb7_5f18_73a6, 0x74bf_40f8_6909_4c63, 0xe623_4909_0f47_d30a, 0x3cd3_88e1_19e8_162e,
      0x73e0_25d9_1b9e_fea3, 0xf0ae_c2fe_1437_f085, 0x0fcd_f997_10f2_1584);
    var a34, e34 := Round512(IV512, 33, 0x2e1b_2138_5c26_c926, 0xad28_9e2e_0bd5_3186, a33, 0xff4d_3f1f_0d46_a736,
      0x4c4f_bbb7_5f18_73a6, 0x74bf_40f8_6909_4c63, e33, 0x3cd3_88e1_19e8_162e, 0x73e0_25d9_1b9e_fea3,
      0xf0ae_c2fe_1437_f085);
    var a35, e35 := Round512(IV512, 34, 0x4d2c_6dfc_5ac4_2aed, 0x3c74_563a_a2f9_673e, a34, a33,
      0xff4d_3f1f_0d46_a736, 0x4c4f_bbb7_5f18_73a6, e34, e33, 0x3cd3_88e1_19e8_162e, 0x73e0_25d9_1b9e_fea3);
    var a36, e36 := Round512(IV512, 35, 0x5338_0d13_9d95_b3df, 0x6ccd_cd14_cc14_b53f, a35, a34, a33,
      0xff4d_3f1f_0d46_a736, e35, e34, e33, 0x3cd3_88e1_19e8_162e);
    var a37, e37 := Round512(IV512, 36, 0x650a_7354_8baf_63de, 0xc3f9_25b3_37f2_2bde, a36, a35, a34, a33, e36, e35,
      e34, e33);
    var a38, e38 := Round512(IV512, 37, 0x766a_0abb_3c77_b2a8, 0x5bcc_77a7_5ad9_5b54, a37, a36, a35, a34, e37, e36,
      e35, e34);
    var a39, e39 := Round512(IV512, 38, 0x81c2_c92e_47ed_aee6, 0x3ec2_257a_dca0_9a52, a38, a37, a36, a35, e38, e37,
      e36, e35);
    var a40, e40 := Round512(IV512, 39, 0x9272_2c85_1482_353b, 0x2824_6960_001f_c5eb, a39, a38, a37, a36, e39, e38,
      e37, e36);
    var a41, e41 := Round512(IV512, 40, 0xa2bf_e8a1_4cf1_0364, 0x04e3_3a75_ce2b_e88a, a40, a39, a38, a37, e40, e39,
      e38, e37);
    var a42, e42 := Round512(IV512, 41, 0xa81a_664b_bc42_3001, 0x7d53_14b3_c359_e0e7, a41, a40, a39, a38, e41, e40,
      e39, e38);
    var a43, e43 := Round512(IV512, 42, 0xc24b_8b70_d0f8_9791, 0xaef7_a285_ff25_1266, a42, a41, a40, a39, e42, e41,
      e40, e39);
    var a44, e44 := Round512(IV512, 43, 0xc76c_51a3_0654_be30, 0x0b84_7258_1dee_a04f, a43, a42, a41, a40, e43, e42,
      e41, e40);
    var a45, e45 := Round512(IV512, 44, 0xd192_e819_d6ef_5218, 0xb174_e26e_ddc7_b033, a44, a43, a42, a41, e44, e43,
      e42, e41);
    var a46, e46 := Round512(IV512, 45, 0xd699_0624_5565_a910, 0x5d63_bae5_8ddd_88de, a45, a44, a43, a42, e45, e44,
      e43, e42);
    var a47, e47 := Round512(IV512, 46, 0xf40e_3585_5771_202a, 0x4c04_4007_b744_ccbb, a46, a45, a44, a43, e46, e45,
      e44, e43);
    var a48, e48 := Round512(IV512, 47, 0x106a_a070_32bb_d1b8, 0xe6a9_aa4d_74dc_7d43, a47, a46, a45, a44, e47, e46,
      e45, e44);
  }

  lemma RoundsSHA512To64()
    ensures After512(IV512, 64) == Regs(0xab44_e862_7647_8d85, 0xa81d_edbb_9f19_e643, 0xcfcd_928c_5424_e2b6,
        0x3857_dfd2_fc37_d3ba, 0xcd88_1ee5_9ca6_bc53, 0x8405_8865_d60a_05fa, 0x09ae_e5bd_a164_4de5,
        0xa6af_4e9c_9f80_7e51)
  {
    hide After512, W512, RoundConstant512;
    Constants512From48();
    Constants512From56();
    Words512From48();
    RoundsSHA512To48();
    var a49, e49 := Round512(IV512, 48, 0x19a4_c116_b8d2_d0c8, 0xebea_f123_7248_019c, 0x6b69_fc1b_b482_feac,
      0xf61e_6726_94de_2d67, 0x021f_badb_abab_5ac6, 0xc47c_9d5c_7ea8_a234, 0x3526_4334_c03a_c8ad,
      0xc6bc_3574_0d8d_aa9a, 0xe95c_2a57_572d_64d9, 0x858d_832a_e0e8_911c);
    var a50, e50 := Round512(IV512, 49, 0x1e37_6c08_5141_ab53, 0x361e_80b2_d00f_3193, a49, 0x6b69_fc1b_b482_feac,
      0xf61e_6726_94de_2d67, 0x021f_badb_abab_5ac6, e49, 0x3526_4334_c03a_c8ad, 0xc6bc_3574_0d8d_aa9a,
      0xe95c_2a57_572d_64d9);
    var a51, e51 := Round512(IV512, 50, 0x2748_774c_df8e_eb99, 0x2e98_3912_5df3_b175, a50, a49,
      0x6b69_fc1b_b482_feac, 0xf61e_6726_94de_2d67, e50, e49, 0x3526_4334_c03a_c8ad, 0xc6bc_3574_0d8d_aa9a);
    var a52, e52 := Round512(IV512, 51, 0x34b0_bcb5_e19b_48a8, 0x3319_6292_93ad_5363, a51, a50, a49,
      0x6b69_fc1b_b482_feac, e51, e50, e49, 0x3526_4334_c03a_c8ad);
    var a53, e53 := Round512(IV512, 52, 0x391c_0cb3_c5c9_5a63, 0x9cbc_5d89_ac1b_89d5, a52, a51, a50, a49, e52, e51,
      e50, e49);
    var a54, e54 := Round512(IV512, 53, 0x4ed8_aa4a_e341_8acb, 0x275e_23ff_eeca_50b7, a53, a52, a51, a50, e53, e52,
      e51, e50);
    var a55, e55 := Round512(IV512, 54, 0x5b9c_ca4f_7763_e373, 0x3b80_d680_bf69_ef58, a54, a53, a52, a51, e54, e53,
      e52, e51);
    var a56, e56 := Round512(IV512, 55, 0x682e_6ff3_d6b2_b8a3, 0x0d06_9693_3945_a125, a55, a54, a53, a52, e55, e54,
      e53, e52);
    var a57, e57 := Round512(IV512, 56, 0x748f_82ee_5def_b2fc, 0x7533_eabc_b786_ff00, a56, a55, a54, a53, e56, e55,
      e54, e53);
    var a58, e58 := Round512(IV512, 57, 0x78a5_636f_4317_2f60, 0xb898_26ce_e6fb_f0e5, a57, a56, a55, a54, e57, e56,
      e55, e54);
    var a59, e59 := Round512(IV512, 58, 0x84c8_7814_a1f0_ab72, 0x249b_4fbc_ad62_3e9f, a58, a57, a56, a55, e58, e57,
      e56, e55);
    var a60, e60 := Round512(IV512, 59, 0x8cc7_0208_1a64_39ec, 0x4aea_9df2_b02d_6f1e, a59, a58, a57, a56, e59, e58,
      e57, e56);
    var a61, e61 := Round512(IV512, 60, 0x90be_fffa_2363_1e28, 0x2cc5_7475_a55e_8d8f, a60, a59, a58, a57, e60, e59,
      e58, e57);
    var a62, e62 := Round512(IV512, 61, 0xa450_6ceb_de82_bde9, 0xb257_4ae9_38d8_be89, a61, a60, a59, a58, e61, e60,
      e59, e58);
    var a63, e63 := Round512(IV512, 62, 0xbef9_a3f7_b2c6_7915, 0xc1b3_5a57_b16d_6aea, a62, a61, a60, a59, e62, e61,
      e60, e59);
    var a64, e64 := Round512(IV512, 63, 0xc671_78f2_e372_532b, 0xcc49_18b5_9492_06bb, a63, a62, a61, a60, e63, e62,
      e61, e60);
  }

  lemma RoundsSHA512To80()
    ensures After512(IV512, 80) == Regs(0x73a5_4f39_9fa4_b1b2, 0x10d9_c4c4_2955_99f6, 0xd678_06db_8b14_8677,
        0x654e_f9ab_ec38_9ca9, 0xd084_46aa_7969_3ed7, 0x9bb4_d397_78c0_7f9e, 0x25c9_6a77_68fb_2aa3,
        0xceb9_fc36_91ce_8326)
  {
    hide After512, W512, RoundConstant512;
    Constants512From64();
    Constants512From72();
    Words512From64();
    RoundsSHA512To64();
    var a65, e65 := Round512(IV512, 64, 0xca27_3ece_ea26_619c, 0x5099_c3ad_d79f_90ec, 0xab44_e862_7647_8d85,
      0xa81d_edbb_9f19_e643, 0xcfcd_928c_5424_e2b6, 0x3857_dfd2_fc37_d3ba, 0xcd88_1ee5_9ca6_bc53,
      0x8405_8865_d60a_05fa, 0x09ae_e5bd_a164_4de5, 0xa6af_4e9c_9f80_7e51);
    var a66, e66 := Round512(IV512, 65, 0xd186_b8c7_21c0_c207, 0x5ea8_1d78_e766_0bf1, a65, 0xab44_e862_7647_8d85,
      0xa81d_edbb_9f19_e643, 0xcfcd_928c_5424_e2b6, e65, 0xcd88_1ee5_9ca6_bc53, 0x8405_8865_d60a_05fa,
      0x09ae_e5bd_a164_4de5);
    var a67, e67 := Round512(IV512, 66, 0xeada_7dd6_cde0_eb1e, 0xebee_6267_405a_c2a9, a66, a65,
      0xab44_e862_7647_8d85, 0xa81d_edbb_9f19_e643, e66, e65, 0xcd88_1ee5_9ca6_bc53, 0x8405_8865_d60a_05fa);
    var a68, e68 := Round512(IV512, 67, 0xf57d_4f7f_ee6e_d178, 0xb01f_2192_6108_a4ab, a67, a66, a65,
      0xab44_e862_7647_8d85, e67, e66, e65, 0xcd88_1ee5_9ca6_bc53);
    var a69, e69 := Round512(IV512, 68, 0x06f0_67aa_7217_6fba, 0x7864_33dd_2fe6_5556, a68, a67, a66, a65, e68, e67,
      e66, e65);
    var a70, e70 := Round512(IV512, 69, 0x0a63_7dc5_a2c8_98a6, 0xc54a_6eaa_24a0_552c, a69, a68, a67, a66, e69, e68,
      e67, e66);
    var a71, e71 := Round512(IV512, 70, 0x113f_9804_bef9_0dae, 0xb3c8_f153_0bdb_aa9e, a70, a69, a68, a67, e70, e69,
      e68, e67);
    var a72, e72 := Round512(IV512, 71, 0x1b71_0b35_131c_471b, 0xbb8a_bfe5_6f46_9338, a71, a70, a69, a68, e71, e70,
      e69, e68);
    var a73, e73 := Round512(IV512, 72, 0x28db_77f5_2304_7d84, 0xf63d_4265_cc1c_5a78, a72, a71, a70, a69, e72, e71,
      e70, e69);
    var a74, e74 := Round512(IV512, 73, 0x32ca_ab7b_40c7_2493, 0xbe83_55ea_7312_9afb, a73, a72, a71, a70, e73, e72,
      e71, e70);
    var a75, e75 := Round512(IV512, 74, 0x3c9e_be0a_15c9_bebc, 0x49e2_db8e_bdcf_beb5, a74, a73, a72, a71, e74, e73,
      e72, e71);
    var a76, e76 := Round512(IV512, 75, 0x431d_67c4_9c10_0d4c, 0x8226_9d4a_883a_3d99, a75, a74, a73, a72, e75, e74,
      e73, e72);
    var a77, e77 := Round512(IV512, 76, 0x4cc5_d4be_cb3e_42b6, 0xfdf5_3df3_011f_362b, a76, a75, a74, a73, e76, e75,
      e74, e73);
    var a78, e78 := Round512(IV512, 77, 0x597f_299c_fc65_7e2a, 0x464a_f567_1d71_c12e, a77, a76, a75, a74, e77, e76,
      e75, e74);
    var a79, e79 := Round512(IV512, 78, 0x5fcb_6fab_3ad6_faec, 0xe449_b681_98ec_611c, a78, a77, a76, a75, e78, e77,
      e76, e75);
    var a80, e80 := Round512(IV512, 79, 0x6c44_198c_4a47_5817, 0x92ae_eed1_a7bc_f7d2, a79, a78, a77, a76, e79, e78,
      e77, e76);
  }

  lemma StateSHA512()
    ensures Compress(Algebra512(), IV512, Abc512()) == Regs(0xddaf_35a1_9361_7aba, 0xcc41_7349_ae20_4131,
        0x12e6_fa4e_89a9_7ea2, 0x0a9e_eee6_4b55_d39a, 0x2192_992a_274f_c1a8, 0x36ba_3c23_a3fe_ebbd,
        0x454d_4423_643c_e80e, 0x2a9a_c94f_a54c_a49f)
  {
    hide Rounds;
    RoundsSHA512To80();
    SumSHA512();
    hide Add64;
  }

  lemma SumSHA512()
    ensures Add64(0x6a09_e667_f3bc_c908, 0x73a5_4f39_9fa4_b1b2) == 0xddaf_35a1_9361_7aba
    ensures Add64(0xbb67_ae85_84ca_a73b, 0x10d9_c4c4_2955_99f6) == 0xcc41_7349_ae20_4131
    ensures Add64(0x3c6e_f372_fe94_f82b, 0xd678_06db_8b14_8677) == 0x12e6_fa4e_89a9_7ea2
    ensures Add64(0xa54f_f53a_5f1d_36f1, 0x654e_f9ab_ec38_9ca9) == 0x0a9e_eee6_4b55_d39a
    ensures Add64(0x510e_527f_ade6_82d1, 0xd084_46aa_7969_3ed7) == 0x2192_992a_274f_c1a8
    ensures Add64(0x9b05_688c_2b3e_6c1f, 0x9bb4_d397_78c0_7f9e) == 0x36ba_3c23_a3fe_ebbd
    ensures Add64(0x1f83_d9ab_fb41_bd6b, 0x25c9_6a77_68fb_2aa3) == 0x454d_4423_643c_e80e
    ensures Add64(0x5be0_cd19_137e_2179, 0xceb9_fc36_91ce_8326) == 0x2a9a_c94f_a54c_a49f
  {}

  /** The published digest of "abc". */
  lemma DigestSHA512OfAbc()
    ensures Digest(SHA512(), [0x61, 0x62, 0x63])
         == [0xdd, 0xaf, 0x35, 0xa1, 0x93, 0x61, 0x7a, 0xba] + [0xcc, 0x41, 0x73, 0x49, 0xae, 0x20, 0x41, 0x31] +
            [0x12, 0xe6, 0xfa, 0x4e, 0x89, 0xa9, 0x7e, 0xa2] + [0x0a, 0x9e, 0xee, 0xe6, 0x4b, 0x55, 0xd3, 0x9a] +
            [0x21, 0x92, 0x99, 0x2a, 0x27, 0x4f, 0xc1, 0xa8] + [0x36, 0xba, 0x3c, 0x23, 0xa3, 0xfe, 0xeb, 0xbd] +
            [0x45, 0x4d, 0x44, 0x23, 0x64, 0x3c, 0xe8, 0x0e] + [0x2a, 0x9a, 0xc9, 0x4f, 0xa5, 0x4c, 0xa4, 0x9f]
  {
    hide Compress, Compressor, WordBytes, Blocks, Padded, LengthField;
    Padded512();
    StateSHA512();
    OneBlock512(IV512);
    BytesSHA512();
    assert HashWords(Compress(Algebra512(), IV512, Abc512()))[..8] == [0xddaf_35a1_9361_7aba,
      0xcc41_7349_ae20_4131, 0x12e6_fa4e_89a9_7ea2, 0x0a9e_eee6_4b55_d39a, 0x2192_992a_274f_c1a8,
      0x36ba_3c23_a3fe_ebbd, 0x454d_4423_643c_e80e, 0x2a9a_c94f_a54c_a49f];
  }

  lemma BytesSHA512()
    ensures WordBytes(Algebra512(), [0xddaf_35a1_9361_7aba, 0xcc41_7349_ae20_4131, 0x12e6_fa4e_89a9_7ea2,
        0x0a9e_eee6_4b55_d39a, 0x2192_992a_274f_c1a8, 0x36ba_3c23_a3fe_ebbd, 0x454d_4423_643c_e80e,
        0x2a9a_c94f_a54c_a49f])
         == [0xdd, 0xaf, 0x35, 0xa1, 0x93, 0x61, 0x7a, 0xba] + [0xcc, 0x41, 0x73, 0x49, 0xae, 0x20, 0x41, 0x31] +
            [0x12, 0xe6, 0xfa, 0x4e, 0x89, 0xa9, 0x7e, 0xa2] + [0x0a, 0x9e, 0xee, 0xe6, 0x4b, 0x55, 0xd3, 0x9a] +
            [0x21, 0x92, 0x99, 0x2a, 0x27, 0x4f, 0xc1, 0xa8] + [0x36, 0xba, 0x3c, 0x23, 0xa3, 0xfe, 0xeb, 0xbd] +
            [0x45, 0x4d, 0x44, 0x23, 0x64, 0x3c, 0xe8, 0x0e] + [0x2a, 0x9a, 0xc9, 0x4f, 0xa5, 0x4c, 0xa4, 0x9f]
  {
    hide WordBytes, ToBigEndian64;
    WordsSHA512();
    BytesOf8(Algebra512(), 0xddaf_35a1_9361_7aba, 0xcc41_7349_ae20_4131, 0x12e6_fa4e_89a9_7ea2,
      0x0a9e_eee6_4b55_d39a, 0x2192_992a_274f_c1a8, 0x36ba_3c23_a3fe_ebbd, 0x454d_4423_643c_e80e,
      0x2a9a_c94f_a54c_a49f);
  }

  lemma WordsSHA512()
    ensures ToBigEndian64(0xddaf_35a1_9361_7aba) == [0xdd, 0xaf, 0x35, 0xa1, 0x93, 0x61, 0x7a, 0xba]
    ensures ToBigEndian64(0xcc41_7349_ae20_4131) == [0xcc, 0x41, 0x73, 0x49, 0xae, 0x20, 0x41, 0x31]
    ensures ToBigEndian64(0x12e6_fa4e_89a9_7ea2) == [0x12, 0xe6, 0xfa, 0x4e, 0x89, 0xa9, 0x7e, 0xa2]
    ensures ToBigEndian64(0x0a9e_eee6_4b55_d39a) == [0x0a, 0x9e, 0xee, 0xe6, 0x4b, 0x55, 0xd3, 0x9a]
    ensures ToBigEndian64(0x2192_992a_274f_c1a8) == [0x21, 0x92, 0x99, 0x2a, 0x27, 0x4f, 0xc1, 0xa8]
    ensures ToBigEndian64(0x36ba_3c23_a3fe_ebbd) == [0x36, 0xba, 0x3c, 0x23, 0xa3, 0xfe, 0xeb, 0xbd]
    ensures ToBigEndian64(0x454d_4423_643c_e80e) == [0x45, 0x4d, 0x44, 0x23, 0x64, 0x3c, 0xe8, 0x0e]
    ensures ToBigEndian64(0x2a9a_c94f_a54c_a49f) == [0x2a, 0x9a, 0xc9, 0x4f, 0xa5, 0x4c, 0xa4, 0x9f]
  {}

  lemma RoundsSHA384To16()
    ensures After512(IV384, 16) == Regs(0x1eab_6159_ae87_ef6d, 0x7e32_dc0e_9f41_4783, 0xe5f0_6744_c0d7_563a,
        0x185f_9ff0_38a5_0f39, 0x153b_895c_fbc4_36c5, 0x3a99_50aa_a5e7_5884, 0x2fa9_3d1c_e952_3015,
        0x8b4a_cfc4_d2b8_afe6)
  {
    hide After512, W512, RoundConstant512;
    Constants512From0();
    Constants512From8();
    Words512From0();
    Before512(IV384);
    var a1, e1 := Round512(IV384, 0, 0x428a_2f98_d728_ae22, 0x6162_6380_0000_0000, 0xcbbb_9d5d_c105_9ed8,
      0x629a_292a_367c_d507, 0x9159_015a_3070_dd17, 0x152f_ecd8_f70e_5939, 0x6733_2667_ffc0_0b31,
      0x8eb4_4a87_6858_1511, 0xdb0c_2e0d_64f9_8fa7, 0x47b5_481d_befa_4fa4);
    var a2, e2 := Round512(IV384, 1, 0x7137_4491_23ef_65cd, 0x0000_0000_0000_0000, a1, 0xcbbb_9d5d_c105_9ed8,
      0x629a_292a_367c_d507, 0x9159_015a_3070_dd17, e1, 0x6733_2667_ffc0_0b31, 0x8eb4_4a87_6858_1511,
      0xdb0c_2e0d_64f9_8fa7);
    var a3, e3 := Round512(IV384, 2, 0xb5c0_fbcf_ec4d_3b2f, 0x0000_0000_0000_0000, a2, a1, 0xcbbb_9d5d_c105_9ed8,
      0x629a_292a_367c_d507, e2, e1, 0x6733_2667_ffc0_0b31, 0x8eb4_4a87_6858_1511);
    var a4, e4 := Round512(IV384, 3, 0xe9b5_dba5_8189_dbbc, 0x0000_0000_0000_0000, a3, a2, a1,
      0xcbbb_9d5d_c105_9ed8, e3, e2, e1, 0x6733_2667_ffc0_0b31);
    var a5, e5 := Round512(IV384, 4, 0x3956_c25b_f348_b538, 0x0000_0000_0000_0000, a4, a3, a2, a1, e4, e3, e2, e1);
    var a6, e6 := Round512(IV384, 5, 0x59f1_11f1_b605_d019, 0x0000_0000_0000_0000, a5, a4, a3, a2, e5, e4, e3, e2);
    var a7, e7 := Round512(IV384, 6, 0x923f_82a4_af19_4f9b, 0x0000_0000_0000_0000, a6, a5, a4, a3, e6, e5, e4, e3);
    var a8, e8 := Round512(IV384, 7, 0xab1c_5ed5_da6d_8118, 0x0000_0000_0000_0000, a7, a6, a5, a4, e7, e6, e5, e4);
    var a9, e9 := Round512(IV384, 8, 0xd807_aa98_a303_0242, 0x0000_0000_0000_0000, a8, a7, a6, a5, e8, e7, e6, e5);
    var a10, e10 := Round512(IV384, 9, 0x1283_5b01_4570_6fbe, 0x0000_0000_0000_0000, a9, a8, a7, a6, e9, e8, e7, e6);
    var a11, e11 := Round512(IV384, 10, 0x2431_85be_4ee4_b28c, 0x0000_0000_0000_0000, a10, a9, a8, a7, e10, e9, e8,
      e7);
    var a12, e12 := Round512(IV384, 11, 0x550c_7dc3_d5ff_b4e2, 0x0000_0000_0000_0000, a11, a10, a9, a8, e11, e10,
      e9, e8);
    var a13, e13 := Round512(IV384, 12, 0x72be_5d74_f27b_896f, 0x0000_0000_0000_0000, a12, a11, a10, a9, e12, e11,
      e10, e9);
    var a14, e14 := Round512(IV384, 13, 0x80de_b1fe_3b16_96b1, 0x0000_0000_0000_0000, a13, a12, a11, a10, e13, e12,
      e11, e10);
    var a15, e15 := Round512(IV384, 14, 0x9bdc_06a7_25c7_1235, 0x0000_0000_0000_0000, a14, a13, a12, a11, e14, e13,
      e12, e11);
    var a16, e16 := Round512(IV384, 15, 0xc19b_f174_cf69_2694, 0x0000_0000_0000_0018, a15, a14, a13, a12, e15, e14,
      e13, e12);
  }

  lemma RoundsSHA384To32()
    ensures After512(IV384, 32) == Regs(0x4ba4_56ec_2440_33ed, 0x4c5c_38df_7ec8_baf4, 0xbbed_541a_5128_088c,
        0xe428_bb43_afe3_d63e, 0x7cf4_0857_056d_86b0, 0x422c_eea0_200e_9ee4, 0x7973_aadb_de29_4be9,
        0x6a85_2752_5f89_8726)
  {
    hide After512, W512, RoundConstant512;
    Constants512From16();
    Constants512From24();
    Words512From16();
    RoundsSHA384To16();
    var a17, e17 := Round512(IV384, 16, 0xe49b_69c1_9ef1_4ad2, 0x6162_6380_0000_0000, 0x1eab_6159_ae87_ef6d,
      0x7e32_dc0e_9f41_4783, 0xe5f0_6744_c0d7_563a, 0x185f_9ff0_38a5_0f39, 0x153b_895c_fbc4_36c5,
      0x3a99_50aa_a5e7_5884, 0x2fa9_3d1c_e952_3015, 0x8b4a_cfc4_d2b8_afe6);
    var a18, e18 := Round512(IV384, 17, 0xefbe_4786_384f_25e3, 0x0003_0000_0000_00c0, a17, 0x1eab_6159_ae87_ef6d,
      0x7e32_dc0e_9f41_4783, 0xe5f0_6744_c0d7_563a, e17, 0x153b_895c_fbc4_36c5, 0x3a99_50aa_a5e7_5884,
      0x2fa9_3d1c_e952_3015);
    var a19, e19 := Round512(IV384, 18, 0x0fc1_9dc6_8b8c_d5b5, 0x0a96_99a2_4c70_0003, a18, a17,
      0x1eab_6159_ae87_ef6d, 0x7e32_dc0e_9f41_4783, e18, e17, 0x153b_895c_fbc4_36c5, 0x3a99_50aa_a5e7_5884);
    var a20, e20 := Round512(IV384, 19, 0x240c_a1cc_77ac_9c65, 0x0000_0c00_6000_0603, a19, a18, a17,
      0x1eab_6159_ae87_ef6d, e19, e18, e17, 0x153b_895c_fbc4_36c5);
    var a21, e21 := Round512(IV384, 20, 0x2de9_2c6f_592b_0275, 0x549e_f626_3985_8996, a20, a19, a18, a17, e20, e19,
      e18, e17);
    var a22, e22 := Round512(IV384, 21, 0x4a74_84aa_6ea6_e483, 0x00c0_0033_0000_3c00, a21, a20, a19, a18, e21, e20,
      e19, e18);
    var a23, e23 := Round512(IV384, 22, 0x5cb0_a9dc_bd41_fbd4, 0x1497_007a_8a0e_9dbc, a22, a21, a20, a19, e22, e21,
      e20, e19);
    var a24, e24 := Round512(IV384, 23, 0x76f9_88da_8311_53b5, 0x62e5_6500_cc07_80f0, a23, a22, a21, a20, e23, e22,
      e21, e20);
    var a25, e25 := Round512(IV384, 24, 0x983e_5152_ee66_dfab, 0x7760_dd47_5a53_8797, a24, a23, a22, a21, e24, e23,
      e22, e21);
    var a26, e26 := Round512(IV384, 25, 0xa831_c66d_2db4_3210, 0xf155_4b71_1c1c_0003, a25, a24, a23, a22, e25, e24,
      e23, e22);
    var a27, e27 := Round512(IV384, 26, 0xb003_27c8_98fb_213f, 0xca29_93a4_345d_9ff2, a26, a25, a24, a23, e26, e25,
      e24, e23);
    var a28, e28 := Round512(IV384, 27, 0xbf59_7fc7_beef_0ee4, 0x5e0e_66b5_c783_dd32, a27, a26, a25, a24, e27, e26,
      e25, e24);
    var a29, e29 := Round512(IV384, 28, 0xc6e0_0bf3_3da8_8fc2, 0xe25a_625d_0049_4b62, a28, a27, a26, a25, e28, e27,
      e26, e25);
    var a30, e30 := Round512(IV384, 29, 0xd5a7_9147_930a_a725, 0x9f44_486f_b1e4_fbd2, a29, a28, a27, a26, e29, e28,
      e27, e26);
    var a31, e31 := Round512(IV384, 30, 0x06ca_6351_e003_826f, 0xb31b_8c2b_0608_5f2f, a30, a29, a28, a27, e30, e29,
      e28, e27);
    var a32, e32 := Round512(IV384, 31, 0x1429_2967_0a0e_6e70, 0x0e98_7660_9341_42f6, a31, a30, a29, a28, e31, e30,
      e29, e28);
  }

  lemma RoundsSHA384To48()
    ensures After512(IV384, 48) == Regs(0xa699_8d63_a5d0_9e04, 0xeb37_53f4_283f_4818, 0xef5e_3885_a2f2_38df,
        0x51dc_aa36_995c_301d, 0xe210_9501_2ee0_b72a, 0x0ae4_8cf8_40bb_8be9, 0x740e_347f_24e1_8fda,
        0xe37f_7783_5399_8050)
  {
    hide After512, W512, RoundConstant512;
    Constants512From32();
    Constants512From40();
    Words512From32();
    RoundsSHA384To32();
    var a33, e33 := Round512(IV384, 32, 0x27b7_0a85_46d2_2ffc, 0xa4af_2cfd_09fb_b924, 0x4ba4_56ec_2440_33ed,
      0x4c5c_38df_7ec8_baf4, 0xbbed_541a_5128_088c, 0xe428_bb43_afe3_d63e, 0x7cf4_0857_056d_86b0,
      0x422c_eea0_200e_9ee4, 0x7973_aadb_de29_4be9, 0x6a85_2752_5f89_8726);
    var a34, e34 := Round512(IV384, 33, 0x2e1b_2138_5c26_c926, 0xad28_9e2e_0bd5_3186, a33, 0x4ba4_56ec_2440_33ed,
      0x4c5c_38df_7ec8_baf4, 0xbbed_541a_5128_088c, e33, 0x7cf4_0857_056d_86b0, 0x422c_eea0_200e_9ee4,
      0x7973_aadb_de29_4be9);
    var a35, e35 := Round512(IV384, 34, 0x4d2c_6dfc_5ac4_2aed, 0x3c74_563a_a2f9_673e, a34, a33,
      0x4ba4_56ec_2440_33ed, 0x4c5c_38df_7ec8_baf4, e34, e33, 0x7cf4_0857_056d_86b0, 0x422c_eea0_200e_9ee4);
    var a36, e36 := Round512(IV384, 35, 0x5338_0d13_9d95_b3df, 0x6ccd_cd14_cc14_b53f, a35, a34, a33,
      0x4ba4_56ec_2440_33ed, e35, e34, e33, 0x7cf4_0857_056d_86b0);
    var a37, e37 := Round512(IV384, 36, 0x650a_7354_8baf_63de, 0xc3f9_25b3_37f2_2bde, a36, a35, a34, a33, e36, e35,
      e34, e33);
    var a38, e38 := Round512(IV384, 37, 0x766a_0abb_3c77_b2a8, 0x5bcc_77a7_5ad9_5b54, a37, a36, a35, a34, e37, e36,
      e35, e34);
    var a39, e39 := Round512(IV384, 38, 0x81c2_c92e_47ed_aee6, 0x3ec2_257a_dca0_9a52, a38, a37, a36, a35, e38, e37,
      e36, e35);
    var a40, e40 := Round512(IV384, 39, 0x9272_2c85_1482_353b, 0x2824_6960_001f_c5eb, a39, a38, a37, a36, e39, e38,
      e37, e36);
    var a41, e41 := Round512(IV384, 40, 0xa2bf_e8a1_4cf1_0364, 0x04e3_3a75_ce2b_e88a, a40, a39, a38, a37, e40, e39,
      e38, e37);
    var a42, e42 := Round512(IV384, 41, 0xa81a_664b_bc42_3001, 0x7d53_14b3_c359_e0e7, a41, a40, a39, a38, e41, e40,
      e39, e38);
    var a43, e43 := Round512(IV384, 42, 0xc24b_8b70_d0f8_9791, 0xaef7_a285_ff25_1266, a42, a41, a40, a39, e42, e41,
      e40, e39);
    var a44, e44 := Round512(IV384, 43, 0xc76c_51a3_0654_be30, 0x0b84_7258_1dee_a04f, a43, a42, a41, a40, e43, e42,
      e41, e40);
    var a45, e45 := Round512(IV384, 44, 0xd192_e819_d6ef_5218, 0xb174_e26e_ddc7_b033, a44, a43, a42, a41, e44, e43,
      e42, e41);
    var a46, e46 := Round512(IV384, 45, 0xd699_0624_5565_a910, 0x5d63_bae5_8ddd_88de, a45, a44, a43, a42, e45, e44,
      e43, e42);
    var a47, e47 := Round512(IV384, 46, 0xf40e_3585_5771_202a, 0x4c04_4007_b744_ccbb, a46, a45, a44, a43, e46, e45,
      e44, e43);
    var a48, e48 := Round512(IV384, 47, 0x106a_a070_32bb_d1b8, 0xe6a9_aa4d_74dc_7d43, a47, a46, a45, a44, e47, e46,
      e45, e44);
  }

  lemma RoundsSHA384To64()
    ensures After512(IV384, 64) == Regs(0x24a1_1242_62a3_31c7, 0x56fb_5883_f1c8_7a05, 0x3dc7_64f8_9e54_043a,
        0x1ca9_3a29_3d54_4328, 0x06ed_acae_6e7b_54ad, 0xf519_8a41_eb80_e022, 0xa577_8494_5550_cf94,
        0xefbe_f83a_35c0_319e)
  {
    hide After512, W512, RoundConstant512;
    Constants512From48();
    Constants512From56();
    Words512From48();
    RoundsSHA384To48();
    var a49, e49 := Round512(IV384, 48, 0x19a4_c116_b8d2_d0c8, 0xebea_f123_7248_019c, 0xa699_8d63_a5d0_9e04,
      0xeb37_53f4_283f_4818, 0xef5e_3885_a2f2_38df, 0x51dc_aa36_995c_301d, 0xe210_9501_2ee0_b72a,
      0x0ae4_8cf8_40bb_8be9, 0x740e_347f_24e1_8fda, 0xe37f_7783_5399_8050);
    var a50, e50 := Round512(IV384, 49, 0x1e37_6c08_5141_ab53, 0x361e_80b2_d00f_3193, a49, 0xa699_8d63_a5d0_9e04,
      0xeb37_53f4_283f_4818, 0xef5e_3885_a2f2_38df, e49, 0xe210_9501_2ee0_b72a, 0x0ae4_8cf8_40bb_8be9,
      0x740e_347f_24e1_8fda);
    var a51, e51 := Round512(IV384, 50, 0x2748_774c_df8e_eb99, 0x2e98_3912_5df3_b175, a50, a49,
      0xa699_8d63_a5d0_9e04, 0xeb37_53f4_283f_4818, e50, e49, 0xe210_9501_2ee0_b72a, 0x0ae4_8cf8_40bb_8be9);
    var a52, e52 := Round512(IV384, 51, 0x34b0_bcb5_e19b_48a8, 0x3319_6292_93ad_5363, a51, a50, a49,
      0xa699_8d63_a5d0_9e04, e51, e50, e49, 0xe210_9501_2ee0_b72a);
    var a53, e53 := Round512(IV384, 52, 0x391c_0cb3_c5c9_5a63, 0x9cbc_5d89_ac1b_89d5, a52, a51, a50, a49, e52, e51,
      e50, e49);
    var a54, e54 := Round512(IV384, 53, 0x4ed8_aa4a_e341_8acb, 0x275e_23ff_eeca_50b7, a53, a52, a51, a50, e53, e52,
      e51, e50);
    var a55, e55 := Round512(IV384, 54, 0x5b9c_ca4f_7763_e373, 0x3b80_d680_bf69_ef58, a54, a53, a52, a51, e54, e53,
      e52, e51);
    var a56, e56 := Round512(IV384, 55, 0x682e_6ff3_d6b2_b8a3, 0x0d06_9693_3945_a125, a55, a54, a53, a52, e55, e54,
      e53, e52);
    var a57, e57 := Round512(IV384, 56, 0x748f_82ee_5def_b2fc, 0x7533_eabc_b786_ff00, a56, a55, a54, a53, e56, e55,
      e54, e53);
    var a58, e58 := Round512(IV384, 57, 0x78a5_636f_4317_2f60, 0xb898_26ce_e6fb_f0e5, a57, a56, a55, a54, e57, e56,
      e55, e54);
    var a59, e59 := Round512(IV384, 58, 0x84c8_7814_a1f0_ab72, 0x249b_4fbc_ad62_3e9f, a58, a57, a56, a55, e58, e57,
      e56, e55);
    var a60, e60 := Round512(IV384, 59, 0x8cc7_0208_1a64_39ec, 0x4aea_9df2_b02d_6f1e, a59, a58, a57, a56, e59, e58,
      e57, e56);
    var a61, e61 := Round512(IV384, 60, 0x90be_fffa_2363_1e28, 0x2cc5_7475_a55e_8d8f, a60, a59, a58, a57, e60, e59,
      e58, e57);
    var a62, e62 := Round512(IV384, 61, 0xa450_6ceb_de82_bde9, 0xb257_4ae9_38d8_be89, a61, a60, a59, a58, e61, e60,
      e59, e58);
    var a63, e63 := Round512(IV384, 62, 0xbef9_a3f7_b2c6_7915, 0xc1b3_5a57_b16d_6aea, a62, a61, a60, a59, e62, e61,
      e60, e59);
    var a64, e64 := Round512(IV384, 63, 0xc671_78f2_e372_532b, 0xcc49_18b5_9492_06bb, a63, a62, a61, a60, e63, e62,
      e61, e60);
  }

  lemma RoundsSHA384To80()
    ensures After512(IV384, 80) == Regs(0xff44_d7e1_849d_bfb3, 0x5306_143f_6449_7b00, 0x95d3_3150_de6d_f44c,
        0x055b_7381_4cf1_02b4, 0x1952_e0c3_a227_c0f2, 0xca06_a219_cc70_1096, 0xc7f7_bff0_8ebf_0d30,
        0xc4b1_4971_0f5d_6a71)
  {
    hide After512, W512, RoundConstant512;
    Constants512From64();
    Constants512From72();
    Words512From64();
    RoundsSHA384To64();
    var a65, e65 := Round512(IV384, 64, 0xca27_3ece_ea26_619c, 0x5099_c3ad_d79f_90ec, 0x24a1_1242_62a3_31c7,
      0x56fb_5883_f1c8_7a05, 0x3dc7_64f8_9e54_043a, 0x1ca9_3a29_3d54_4328, 0x06ed_acae_6e7b_54ad,
      0xf519_8a41_eb80_e022, 0xa577_8494_5550_cf94, 0xefbe_f83a_35c0_319e);
    var a66, e66 := Round512(IV384, 65, 0xd186_b8c7_21c0_c207, 0x5ea8_1d78_e766_0bf1, a65, 0x24a1_1242_62a3_31c7,
      0x56fb_5883_f1c8_7a05, 0x3dc7_64f8_9e54_043a, e65, 0x06ed_acae_6e7b_54ad, 0xf519_8a41_eb80_e022,
      0xa577_8494_5550_cf94);
    var a67, e67 := Round512(IV384, 66, 0xeada_7dd6_cde0_eb1e, 0xebee_6267_405a_c2a9, a66, a65,
      0x24a1_1242_62a3_31c7, 0x56fb_5883_f1c8_7a05, e66, e65, 0x06ed_acae_6e7b_54ad, 0xf519_8a41_eb80_e022);
    var a68, e68 := Round512(IV384, 67, 0xf57d_4f7f_ee6e_d178, 0xb01f_2192_6108_a4ab, a67, a66, a65,
      0x24a1_1242_62a3_31c7, e67, e66, e65, 0x06ed_acae_6e7b_54ad);
    var a69, e69 := Round512(IV384, 68, 0x06f0_67aa_7217_6fba, 0x7864_33dd_2fe6_5556, a68, a67, a66, a65, e68, e67,
      e66, e65);
    var a70, e70 := Round512(IV384, 69, 0x0a63_7dc5_a2c8_98a6, 0xc54a_6eaa_24a0_552c, a69, a68, a67, a66, e69, e68,
      e67, e66);
    var a71, e71 := Round512(IV384, 70, 0x113f_9804_bef9_0dae, 0xb3c8_f153_0bdb_aa9e, a70, a69, a68, a67, e70, e69,
      e68, e67);
    var a72, e72 := Round512(IV384, 71, 0x1b71_0b35_131c_471b, 0xbb8a_bfe5_6f46_9338, a71, a70, a69, a68, e71, e70,
      e69, e68);
    var a73, e73 := Round512(IV384, 72, 0x28db_77f5_2304_7d84, 0xf63d_4265_cc1c_5a78, a72, a71, a70, a69, e72, e71,
      e70, e69);
    var a74, e74 := Round512(IV384, 73, 0x32ca_ab7b_40c7_2493, 0xbe83_55ea_7312_9afb, a73, a72, a71, a70, e73, e72,
      e71, e70);
    var a75, e75 := Round512(IV384, 74, 0x3c9e_be0a_15c9_bebc, 0x49e2_db8e_bdcf_beb5, a74, a73, a72, a71, e74, e73,
      e72, e71);
    var a76, e76 := Round512(IV384, 75, 0x431d_67c4_9c10_0d4c, 0x8226_9d4a_883a_3d99, a75, a74, a73, a72, e75, e74,
      e73, e72);
    var a77, e77 := Round512(IV384, 76, 0x4cc5_d4be_cb3e_42b6, 0xfdf5_3df3_011f_362b, a76, a75, a74, a73, e76, e75,
      e74, e73);
    var a78, e78 := Round512(IV384, 77, 0x597f_299c_fc65_7e2a, 0x464a_f567_1d71_c12e, a77, a76, a75, a74, e77, e76,
      e75, e74);
    var a79, e79 := Round512(IV384, 78, 0x5fcb_6fab_3ad6_faec, 0xe449_b681_98ec_611c, a78, a77, a76, a75, e78, e77,
      e76, e75);
    var a80, e80 := Round512(IV384, 79, 0x6c44_198c_4a47_5817, 0x92ae_eed1_a7bc_f7d2, a79, a78, a77, a76, e79, e78,
      e77, e76);
  }

  lemma StateSHA384()
    ensures Compress(Algebra512(), IV384, Abc512()) == Regs(0xcb00_753f_45a3_5e8b, 0xb5a0_3d69_9ac6_5007,
        0x272c_32ab_0ede_d163, 0x1a8b_605a_43ff_5bed, 0x8086_072b_a1e7_cc23, 0x58ba_eca1_34c8_25a7,
        0xa303_edfd_f3b8_9cd7, 0x0c66_918e_ce57_ba15)
  {
    hide Rounds;
    RoundsSHA384To80();
    SumSHA384();
    hide Add64;
  }

  lemma SumSHA384()
    ensures Add64(0xcbbb_9d5d_c105_9ed8, 0xff44_d7e1_849d_bfb3) == 0xcb00_753f_45a3_5e8b
    ensures Add64(0x629a_292a_367c_d507, 0x5306_143f_6449_7b00) == 0xb5a0_3d69_9ac6_5007
    ensures Add64(0x9159_015a_3070_dd17, 0x95d3_3150_de6d_f44c) == 0x272c_32ab_0ede_d163
    ensures Add64(0x152f_ecd8_f70e_5939, 0x055b_7381_4cf1_02b4) == 0x1a8b_605a_43ff_5bed
    ensures Add64(0x6733_2667_ffc0_0b31, 0x1952_e0c3_a227_c0f2) == 0x8086_072b_a1e7_cc23
    ensures Add64(0x8eb4_4a87_6858_1511, 0xca06_a219_cc70_1096) == 0x58ba_eca1_34c8_25a7
    ensures Add64(0xdb0c_2e0d_64f9_8fa7, 0xc7f7_bff0_8ebf_0d30) == 0xa303_edfd_f3b8_9cd7
    ensures Add64(0x47b5_481d_befa_4fa4, 0xc4b1_4971_0f5d_6a71) == 0x0c66_918e_ce57_ba15
  {}

  /** The published digest of "abc". */
  lemma DigestSHA384OfAbc()
    ensures Digest(SHA384(), [0x61, 0x62, 0x63])
         == [0xcb, 0x00, 0x75, 0x3f, 0x45, 0xa3, 0x5e, 0x8b] + [0xb5, 0xa0, 0x3d, 0x69, 0x9a, 0xc6, 0x50, 0x07] +
            [0x27, 0x2c, 0x32, 0xab, 0x0e, 0xde, 0xd1, 0x63] + [0x1a, 0x8b, 0x60, 0x5a, 0x43, 0xff, 0x5b, 0xed] +
            [0x80, 0x86, 0x07, 0x2b, 0xa1, 0xe7, 0xcc, 0x23] + [0x58, 0xba, 0xec, 0xa1, 0x34, 0xc8, 0x25, 0xa7]
  {
    hide Compress, Compressor, WordBytes, Blocks, Padded, LengthField;
    Padded512();
    StateSHA384();
    OneBlock512(IV384);
    BytesSHA384();
    assert HashWords(Compress(Algebra512(), IV384, Abc512()))[..6] == [0xcb00_753f_45a3_5e8b,
      0xb5a0_3d69_9ac6_5007, 0x272c_32ab_0ede_d163, 0x1a8b_605a_43ff_5bed, 0x8086_072b_a1e7_cc23,
      0x58ba_eca1_34c8_25a7];
  }

  lemma BytesSHA384()
    ensures WordBytes(Algebra512(), [0xcb00_753f_45a3_5e8b, 0xb5a0_3d69_9ac6_5007, 0x272c_32ab_0ede_d163,
        0x1a8b_605a_43ff_5bed, 0x8086_072b_a1e7_cc23, 0x58ba_eca1_34c8_25a7])
         == [0xcb, 0x00, 0x75, 0x3f, 0x45, 0xa3, 0x5e, 0x8b] + [0xb5, 0xa0, 0x3d, 0x69, 0x9a, 0xc6, 0x50, 0x07] +
            [0x27, 0x2c, 0x32, 0xab, 0x0e, 0xde, 0xd1, 0x63] + [0x1a, 0x8b, 0x60, 0x5a, 0x43, 0xff, 0x5b, 0xed] +
            [0x80, 0x86, 0x07, 0x2b, 0xa1, 0xe7, 0xcc, 0x23] + [0x58, 0xba, 0xec, 0xa1, 0x34, 0xc8, 0x25, 0xa7]
  {
    hide WordBytes, ToBigEndian64;
    WordsSHA384();
    BytesOf6(Algebra512(), 0xcb00_753f_45a3_5e8b, 0xb5a0_3d69_9ac6_5007, 0x272c_32ab_0ede_d163,
      0x1a8b_605a_43ff_5bed, 0x8086_072b_a1e7_cc23, 0x58ba_eca1_34c8_25a7);
  }

  lemma WordsSHA384()
    ensures ToBigEndian64(0xcb00_753f_45a3_5e8b) == [0xcb, 0x00, 0x75, 0x3f, 0x45, 0xa3, 0x5e, 0x8b]
    ensures ToBigEndian64(0xb5a0_3d69_9ac6_5007) == [0xb5, 0xa0, 0x3d, 0x69, 0x9a, 0xc6, 0x50, 0x07]
    ensures ToBigEndian64(0x272c_32ab_0ede_d163) == [0x27, 0x2c, 0x32, 0xab, 0x0e, 0xde, 0xd1, 0x63]
    ensures ToBigEndian64(0x1a8b_605a_43ff_5bed) == [0x1a, 0x8b, 0x60, 0x5a, 0x43, 0xff, 0x5b, 0xed]
    ensures ToBigEndian64(0x8086_072b_a1e7_cc23) == [0x80, 0x86, 0x07, 0x2b, 0xa1, 0xe7, 0xcc, 0x23]
    ensures ToBigEndian64(0x58ba_eca1_34c8_25a7) == [0x58, 0xba, 0xec, 0xa1, 0x34, 0xc8, 0x25, 0xa7]
  {}
}
