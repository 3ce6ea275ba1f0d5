/** MD5Transform: the sixty-four operations written out, registers updated where they are. */
module Md5Transform {
  import opened Md5Spec
  import opened WordsInMemory

  // The FF, GG, HH and II macros.

  function Mix(f: bv32, a: bv32, b: bv32, x: bv32, s: nat, ac: bv32): bv32
    requires 0 < s < 32
  {
    Rotl(a + (f + x + ac), s) + b
  }

  function FF(a: bv32, b: bv32, c: bv32, d: bv32, x: bv32, s: nat, ac: bv32): bv32
    requires 0 < s < 32
  {
    Mix(F(b, c, d), a, b, x, s, ac)
  }

  function GG(a: bv32, b: bv32, c: bv32, d: bv32, x: bv32, s: nat, ac: bv32): bv32
    requires 0 < s < 32
  {
    Mix(G(b, c, d), a, b, x, s, ac)
  }

  function HH(a: bv32, b: bv32, c: bv32, d: bv32, x: bv32, s: nat, ac: bv32): bv32
    requires 0 < s < 32
  {
    Mix(H(b, c, d), a, b, x, s, ac)
  }

  function II(a: bv32, b: bv32, c: bv32, d: bv32, x: bv32, s: nat, ac: bv32): bv32
    requires 0 < s < 32
  {
    Mix(I(b, c, d), a, b, x, s, ac)
  }

  /** The macros add in another order than the specification. */
  lemma MixIsOp(f: bv32, a: bv32, b: bv32, x: bv32, s: nat, ac: bv32)
    requires 0 < s < 32
    ensures Mix(f, a, b, x, s, ac) == Op(f, a, b, x, s, ac)
  {
    hide Rotl;
    assert a + (f + x + ac) == a + f + x + ac;
  }

  lemma FStep(h: Regs4, x: seq<bv32>, i: nat, p: Regs4, k: nat, s: nat, ac: bv32)
    requires |x| == 16 && 0 <= i < 16 && Steps(h, x, i) == p
    requires k == WordIndex(i) && s == Shift(i) && ac == T(i)
    ensures Steps(h, x, i + 1) == Regs4(p.d, FF(p.a, p.b, p.c, p.d, x[k], s, ac), p.b, p.c)
  {
    hide Mix, Op, F, WordIndex, Shift, T;
    MixIsOp(F(p.b, p.c, p.d), p.a, p.b, x[k], s, ac);
  }

  lemma GStep(h: Regs4, x: seq<bv32>, i: nat, p: Regs4, k: nat, s: nat, ac: bv32)
    requires |x| == 16 && 16 <= i < 32 && Steps(h, x, i) == p
    requires k == WordIndex(i) && s == Shift(i) && ac == T(i)
    ensures Steps(h, x, i + 1) == Regs4(p.d, GG(p.a, p.b, p.c, p.d, x[k], s, ac), p.b, p.c)
  {
    hide Mix, Op, G, WordIndex, Shift, T;
    MixIsOp(G(p.b, p.c, p.d), p.a, p.b, x[k], s, ac);
  }

  lemma HStep(h: Regs4, x: seq<bv32>, i: nat, p: Regs4, k: nat, s: nat, ac: bv32)
    requires |x| == 16 && 32 <= i < 48 && Steps(h, x, i) == p
    requires k == WordIndex(i) && s == Shift(i) && ac == T(i)
    ensures Steps(h, x, i + 1) == Regs4(p.d, HH(p.a, p.b, p.c, p.d, x[k], s, ac), p.b, p.c)
  {
    hide Mix, Op, H, WordIndex, Shift, T;
    MixIsOp(H(p.b, p.c, p.d), p.a, p.b, x[k], s, ac);
  }

  lemma IStep(h: Regs4, x: seq<bv32>, i: nat, p: Regs4, k: nat, s: nat, ac: bv32)
    requires |x| == 16 && 48 <= i < 64 && Steps(h, x, i) == p
    requires k == WordIndex(i) && s == Shift(i) && ac == T(i)
    ensures Steps(h, x, i + 1) == Regs4(p.d, II(p.a, p.b, p.c, p.d, x[k], s, ac), p.b, p.c)
  {
    hide Mix, Op, I, WordIndex, Shift, T;
    MixIsOp(I(p.b, p.c, p.d), p.a, p.b, x[k], s, ac);
  }

  method Round1(a0: bv32, b0: bv32, c0: bv32, d0: bv32, x: array<bv32>, ghost h: Regs4)
    returns (a: bv32, b: bv32, c: bv32, d: bv32)
    requires x.Length == 16 && Steps(h, x[..], 0) == Regs4(a0, b0, c0, d0)
    ensures Steps(h, x[..], 16) == Regs4(a, b, c, d)
  {
    hide Steps, FF, WordIndex, Shift, T;
    Rows1();
    Constants1();
    a, b, c, d := a0, b0, c0, d0;
    ghost var p := Regs4(a, b, c, d);
    a := FF(a, b, c, d, x[0], 7, 0xd76a_a478);
    FStep(h, x[..], 0, p, 0, 7, 0xd76a_a478);
    p := Regs4(d, a, b, c);
    d := FF(d, a, b, c, x[1], 12, 0xe8c7_b756);
    FStep(h, x[..], 1, p, 1, 12, 0xe8c7_b756);
    p := Regs4(c, d, a, b);
    c := FF(c, d, a, b, x[2], 17, 0x2420_70db);
    FStep(h, x[..], 2, p, 2, 17, 0x2420_70db);
    p := Regs4(b, c, d, a);
    b := FF(b, c, d, a, x[3], 22, 0xc1bd_ceee);
    FStep(h, x[..], 3, p, 3, 22, 0xc1bd_ceee);
    p := Regs4(a, b, c, d);
    a := FF(a, b, c, d, x[4], 7, 0xf57c_0faf);
    FStep(h, x[..], 4, p, 4, 7, 0xf57c_0faf);
    p := Regs4(d, a, b, c);
    d := FF(d, a, b, c, x[5], 12, 0x4787_c62a);
    FStep(h, x[..], 5, p, 5, 12, 0x4787_c62a);
    p := Regs4(c, d, a, b);
    c := FF(c, d, a, b, x[6], 17, 0xa830_4613);
    FStep(h, x[..], 6, p, 6, 17, 0xa830_4613);
    p := Regs4(b, c, d, a);
    b := FF(b, c, d, a, x[7], 22, 0xfd46_9501);
    FStep(h, x[..], 7, p, 7, 22, 0xfd46_9501);
    p := Regs4(a, b, c, d);
    a := FF(a, b, c, d, x[8], 7, 0x6980_98d8);
    FStep(h, x[..], 8, p, 8, 7, 0x6980_98d8);
    p := Regs4(d, a, b, c);
    d := FF(d, a, b, c, x[9], 12, 0x8b44_f7af);
    FStep(h, x[..], 9, p, 9, 12, 0x8b44_f7af);
    p := Regs4(c, d, a, b);
    c := FF(c, d, a, b, x[10], 17, 0xffff_5bb1);
    FStep(h, x[..], 10, p, 10, 17, 0xffff_5bb1);
    p := Regs4(b, c, d, a);
    b := FF(b, c, d, a, x[11], 22, 0x895c_d7be);
    FStep(h, x[..], 11, p, 11, 22, 0x895c_d7be);
    p := Regs4(a, b, c, d);
    a := FF(a, b, c, d, x[12], 7, 0x6b90_1122);
    FStep(h, x[..], 12, p, 12, 7, 0x6b90_1122);
    p := Regs4(d, a, b, c);
    d := FF(d, a, b, c, x[13], 12, 0xfd98_7193);
    FStep(h, x[..], 13, p, 13, 12, 0xfd98_7193);
    p := Regs4(c, d, a, b);
    c := FF(c, d, a, b, x[14], 17, 0xa679_438e);
    FStep(h, x[..], 14, p, 14, 17, 0xa679_438e);
    p := Regs4(b, c, d, a);
    b := FF(b, c, d, a, x[15], 22, 0x49b4_0821);
    FStep(h, x[..], 15, p, 15, 22, 0x49b4_0821);
  }

  lemma Rows1()
    ensures WordIndex(0) == 0 && Shift(0) == 7
    ensures WordIndex(1) == 1 && Shift(1) == 12
    ensures WordIndex(2) == 2 && Shift(2) == 17
    ensures WordIndex(3) == 3 && Shift(3) == 22
    ensures WordIndex(4) == 4 && Shift(4) == 7
    ensures WordIndex(5) == 5 && Shift(5) == 12
    ensures WordIndex(6) == 6 && Shift(6) == 17
    ensures WordIndex(7) == 7 && Shift(7) == 22
    ensures WordIndex(8) == 8 && Shift(8) == 7
    ensures WordIndex(9) == 9 && Shift(9) == 12
    ensures WordIndex(10) == 10 && Shift(10) == 17
    ensures WordIndex(11) == 11 && Shift(11) == 22
    ensures WordIndex(12) == 12 && Shift(12) == 7
    ensures WordIndex(13) == 13 && Shift(13) == 12
    ensures WordIndex(14) == 14 && Shift(14) == 17
    ensures WordIndex(15) == 15 && Shift(15) == 22
  {}

  lemma Constants1()
    ensures T(0) == 0xd76a_a478
    ensures T(1) == 0xe8c7_b756
    ensures T(2) == 0x2420_70db
    ensures T(3) == 0xc1bd_ceee
    ensures T(4) == 0xf57c_0faf
    ensures T(5) == 0x4787_c62a
    ensures T(6) == 0xa830_4613
    ensures T(7) == 0xfd46_9501
    ensures T(8) == 0x6980_98d8
    ensures T(9) == 0x8b44_f7af
    ensures T(10) == 0xffff_5bb1
    ensures T(11) == 0x895c_d7be
    ensures T(12) == 0x6b90_1122
    ensures T(13) == 0xfd98_7193
    ensures T(14) == 0xa679_438e
    ensures T(15) == 0x49b4_0821
  {}

  method Round2(a0: bv32, b0: bv32, c0: bv32, d0: bv32, x: array<bv32>, ghost h: Regs4)
    returns (a: bv32, b: bv32, c: bv32, d: bv32)
    requires x.Length == 16 && Steps(h, x[..], 16) == Regs4(a0, b0, c0, d0)
    ensures Steps(h, x[..], 32) == Regs4(a, b, c, d)
  {
    hide Steps, GG, WordIndex, Shift, T;
    Rows2();
    Constants2();
    a, b, c, d := a0, b0, c0, d0;
    ghost var p := Regs4(a, b, c, d);
    a := GG(a, b, c, d, x[1], 5, 0xf61e_2562);
    GStep(h, x[..], 16, p, 1, 5, 0xf61e_2562);
    p := Regs4(d, a, b, c);
    d := GG(d, a, b, c, x[6], 9, 0xc040_b340);
    GStep(h, x[..], 17, p, 6, 9, 0xc040_b340);
    p := Regs4(c, d, a, b);
    c := GG(c, d, a, b, x[11], 14, 0x265e_5a51);
    GStep(h, x[..], 18, p, 11, 14, 0x265e_5a51);
    p := Regs4(b, c, d, a);
    b := GG(b, c, d, a, x[0], 20, 0xe9b6_c7aa);
    GStep(h, x[..], 19, p, 0, 20, 0xe9b6_c7aa);
    p := Regs4(a, b, c, d);
    a := GG(a, b, c, d, x[5], 5, 0xd62f_105d);
    GStep(h, x[..], 20, p, 5, 5, 0xd62f_105d);
    p := Regs4(d, a, b, c);
    d := GG(d, a, b, c, x[10], 9, 0x0244_1453);
    GStep(h, x[..], 21, p, 10, 9, 0x0244_1453);
    p := Regs4(c, d, a, b);
    c := GG(c, d, a, b, x[15], 14, 0xd8a1_e681);
    GStep(h, x[..], 22, p, 15, 14, 0xd8a1_e681);
    p := Regs4(b, c, d, a);
    b := GG(b, c, d, a, x[4], 20, 0xe7d3_fbc8);
    GStep(h, x[..], 23, p, 4, 20, 0xe7d3_fbc8);
    p := Regs4(a, b, c, d);
    a := GG(a, b, c, d, x[9], 5, 0x21e1_cde6);
    GStep(h, x[..], 24, p, 9, 5, 0x21e1_cde6);
    p := Regs4(d, a, b, c);
    d := GG(d, a, b, c, x[14], 9, 0xc337_07d6);
    GStep(h, x[..], 25, p, 14, 9, 0xc337_07d6);
    p := Regs4(c, d, a, b);
    c := GG(c, d, a, b, x[3], 14, 0xf4d5_0d87);
    GStep(h, x[..], 26, p, 3, 14, 0xf4d5_0d87);
    p := Regs4(b, c, d, a);
    b := GG(b, c, d, a, x[8], 20, 0x455a_14ed);
    GStep(h, x[..], 27, p, 8, 20, 0x455a_14ed);
    p := Regs4(a, b, c, d);
    a := GG(a, b, c, d, x[13], 5, 0xa9e3_e905);
    GStep(h, x[..], 28, p, 13, 5, 0xa9e3_e905);
    p := Regs4(d, a, b, c);
    d := GG(d, a, b, c, x[2], 9, 0xfcef_a3f8);
    GStep(h, x[..], 29, p, 2, 9, 0xfcef_a3f8);
    p := Regs4(c, d, a, b);
    c := GG(c, d, a, b, x[7], 14, 0x676f_02d9);
    GStep(h, x[..], 30, p, 7, 14, 0x676f_02d9);
    p := Regs4(b, c, d, a);
    b := GG(b, c, d, a, x[12], 20, 0x8d2a_4c8a);
    GStep(h, x[..], 31, p, 12, 20, 0x8d2a_4c8a);
  }

  lemma Rows2()
    ensures WordIndex(16) == 1 && Shift(16) == 5
    ensures WordIndex(17) == 6 && Shift(17) == 9
    ensures WordIndex(18) == 11 && Shift(18) == 14
    ensures WordIndex(19) == 0 && Shift(19) == 20
    ensures WordIndex(20) == 5 && Shift(20) == 5
    ensures WordIndex(21) == 10 && Shift(21) == 9
    ensures WordIndex(22) == 15 && Shift(22) == 14
    ensures WordIndex(23) == 4 && Shift(23) == 20
    ensures WordIndex(24) == 9 && Shift(24) == 5
    ensures WordIndex(25) == 14 && Shift(25) == 9
    ensures WordIndex(26) == 3 && Shift(26) == 14
    ensures WordIndex(27) == 8 && Shift(27) == 20
    ensures WordIndex(28) == 13 && Shift(28) == 5
    ensures WordIndex(29) == 2 && Shift(29) == 9
    ensures WordIndex(30) == 7 && Shift(30) == 14
    ensures WordIndex(31) == 12 && Shift(31) == 20
  {}

  lemma Constants2()
    ensures T(16) == 0xf61e_2562
    ensures T(17) == 0xc040_b340
    ensures T(18) == 0x265e_5a51
    ensures T(19) == 0xe9b6_c7aa
    ensures T(20) == 0xd62f_105d
    ensures T(21) == 0x0244_1453
    ensures T(22) == 0xd8a1_e681
    ensures T(23) == 0xe7d3_fbc8
    ensures T(24) == 0x21e1_cde6
    ensures T(25) == 0xc337_07d6
    ensures T(26) == 0xf4d5_0d87
    ensures T(27) == 0x455a_14ed
    ensures T(28) == 0xa9e3_e905
    ensures T(29) == 0xfcef_a3f8
    ensures T(30) == 0x676f_02d9
    ensures T(31) == 0x8d2a_4c8a
  {}

  method Round3(a0: bv32, b0: bv32, c0: bv32, d0: bv32, x: array<bv32>, ghost h: Regs4)
    returns (a: bv32, b: bv32, c: bv32, d: bv32)
    requires x.Length == 16 && Steps(h, x[..], 32) == Regs4(a0, b0, c0, d0)
    ensures Steps(h, x[..], 48) == Regs4(a, b, c, d)
  {
    hide Steps, HH, WordIndex, Shift, T;
    Rows3();
    Constants3();
    a, b, c, d := a0, b0, c0, d0;
    ghost var p := Regs4(a, b, c, d);
    a := HH(a, b, c, d, x[5], 4, 0xfffa_3942);
    HStep(h, x[..], 32, p, 5, 4, 0xfffa_3942);
    p := Regs4(d, a, b, c);
    d := HH(d, a, b, c, x[8], 11, 0x8771_f681);
    HStep(h, x[..], 33, p, 8, 11, 0x8771_f681);
    p := Regs4(c, d, a, b);
    c := HH(c, d, a, b, x[11], 16, 0x6d9d_6122);
    HStep(h, x[..], 34, p, 11, 16, 0x6d9d_6122);
    p := Regs4(b, c, d, a);
    b := HH(b, c, d, a, x[14], 23, 0xfde5_380c);
    HStep(h, x[..], 35, p, 14, 23, 0xfde5_380c);
    p := Regs4(a, b, c, d);
    a := HH(a, b, c, d, x[1], 4, 0xa4be_ea44);
    HStep(h, x[..], 36, p, 1, 4, 0xa4be_ea44);
    p := Regs4(d, a, b, c);
    d := HH(d, a, b, c, x[4], 11, 0x4bde_cfa9);
    HStep(h, x[..], 37, p, 4, 11, 0x4bde_cfa9);
    p := Regs4(c, d, a, b);
    c := HH(c, d, a, b, x[7], 16, 0xf6bb_4b60);
    HStep(h, x[..], 38, p, 7, 16, 0xf6bb_4b60);
    p := Regs4(b, c, d, a);
    b := HH(b, c, d, a, x[10], 23, 0xbebf_bc70);
    HStep(h, x[..], 39, p, 10, 23, 0xbebf_bc70);
    p := Regs4(a, b, c, d);
    a := HH(a, b, c, d, x[13], 4, 0x289b_7ec6);
    HStep(h, x[..], 40, p, 13, 4, 0x289b_7ec6);
    p := Regs4(d, a, b, c);
    d := HH(d, a, b, c, x[0], 11, 0xeaa1_27fa);
    HStep(h, x[..], 41, p, 0, 11, 0xeaa1_27fa);
    p := Regs4(c, d, a, b);
    c := HH(c, d, a, b, x[3], 16, 0xd4ef_3085);
    HStep(h, x[..], 42, p, 3, 16, 0xd4ef_3085);
    p := Regs4(b, c, d, a);
    b := HH(b, c, d, a, x[6], 23, 0x0488_1d05);
    HStep(h, x[..], 43, p, 6, 23, 0x0488_1d05);
    p := Regs4(a, b, c, d);
    a := HH(a, b, c, d, x[9], 4, 0xd9d4_d039);
    HStep(h, x[..], 44, p, 9, 4, 0xd9d4_d039);
    p := Regs4(d, a, b, c);
    d := HH(d, a, b, c, x[12], 11, 0xe6db_99e5);
    HStep(h, x[..], 45, p, 12, 11, 0xe6db_99e5);
    p := Regs4(c, d, a, b);
    c := HH(c, d, a, b, x[15], 16, 0x1fa2_7cf8);
    HStep(h, x[..], 46, p, 15, 16, 0x1fa2_7cf8);
    p := Regs4(b, c, d, a);
    b := HH(b, c, d, a, x[2], 23, 0xc4ac_5665);
    HStep(h, x[..], 47, p, 2, 23, 0xc4ac_5665);
  }

  lemma Rows3()
    ensures WordIndex(32) == 5 && Shift(32) == 4
    ensures WordIndex(33) == 8 && Shift(33) == 11
    ensures WordIndex(34) == 11 && Shift(34) == 16
    ensures WordIndex(35) == 14 && Shift(35) == 23
    ensures WordIndex(36) == 1 && Shift(36) == 4
    ensures WordIndex(37) == 4 && Shift(37) == 11
    ensures WordIndex(38) == 7 && Shift(38) == 16
    ensures WordIndex(39) == 10 && Shift(39) == 23
    ensures WordIndex(40) == 13 && Shift(40) == 4
    ensures WordIndex(41) == 0 && Shift(41) == 11
    ensures WordIndex(42) == 3 && Shift(42) == 16
    ensures WordIndex(43) == 6 && Shift(43) == 23
    ensures WordIndex(44) == 9 && Shift(44) == 4
    ensures WordIndex(45) == 12 && Shift(45) == 11
    ensures WordIndex(46) == 15 && Shift(46) == 16
    ensures WordIndex(47) == 2 && Shift(47) == 23
  {}

  lemma Constants3()
    ensures T(32) == 0xfffa_3942
    ensures T(33) == 0x8771_f681
    ensures T(34) == 0x6d9d_6122
    ensures T(35) == 0xfde5_380c
    ensures T(36) == 0xa4be_ea44
    ensures T(37) == 0x4bde_cfa9
    ensures T(38) == 0xf6bb_4b60
    ensures T(39) == 0xbebf_bc70
    ensures T(40) == 0x289b_7ec6
    ensures T(41) == 0xeaa1_27fa
    ensures T(42) == 0xd4ef_3085
    ensures T(43) == 0x0488_1d05
    ensures T(44) == 0xd9d4_d039
    ensures T(45) == 0xe6db_99e5
    ensures T(46) == 0x1fa2_7cf8
    ensures T(47) == 0xc4ac_5665
  {}

  method Round4(a0: bv32, b0: bv32, c0: bv32, d0: bv32, x: array<bv32>, ghost h: Regs4)
    returns (a: bv32, b: bv32, c: bv32, d: bv32)
    requires x.Length == 16 && Steps(h, x[..], 48) == Regs4(a0, b0, c0, d0)
    ensures Steps(h, x[..], 64) == Regs4(a, b, c, d)
  {
    hide Steps, II, WordIndex, Shift, T;
    Rows4();
    Constants4();
    a, b, c, d := a0, b0, c0, d0;
    ghost var p := Regs4(a, b, c, d);
    a := II(a, b, c, d, x[0], 6, 0xf429_2244);
    IStep(h, x[..], 48, p, 0, 6, 0xf429_2244);
    p := Regs4(d, a, b, c);
    d := II(d, a, b, c, x[7], 10, 0x432a_ff97);
    IStep(h, x[..], 49, p, 7, 10, 0x432a_ff97);
    p := Regs4(c, d, a, b);
    c := II(c, d, a, b, x[14], 15, 0xab94_23a7);
    IStep(h, x[..], 50, p, 14, 15, 0xab94_23a7);
    p := Regs4(b, c, d, a);
    b := II(b, c, d, a, x[5], 21, 0xfc93_a039);
    IStep(h, x[..], 51, p, 5, 21, 0xfc93_a039);
    p := Regs4(a, b, c, d);
    a := II(a, b, c, d, x[12], 6, 0x655b_59c3);
    IStep(h, x[..], 52, p, 12, 6, 0x655b_59c3);
    p := Regs4(d, a, b, c);
    d := II(d, a, b, c, x[3], 10, 0x8f0c_cc92);
    IStep(h, x[..], 53, p, 3, 10, 0x8f0c_cc92);
    p := Regs4(c, d, a, b);
    c := II(c, d, a, b, x[10], 15, 0xffef_f47d);
    IStep(h, x[..], 54, p, 10, 15, 0xffef_f47d);
    p := Regs4(b, c, d, a);
    b := II(b, c, d, a, x[1], 21, 0x8584_5dd1);
    IStep(h, x[..], 55, p, 1, 21, 0x8584_5dd1);
    p := Regs4(a, b, c, d);
    a := II(a, b, c, d, x[8], 6, 0x6fa8_7e4f);
    IStep(h, x[..], 56, p, 8, 6, 0x6fa8_7e4f);
    p := Regs4(d, a, b, c);
    d := II(d, a, b, c, x[15], 10, 0xfe2c_e6e0);
    IStep(h, x[..], 57, p, 15, 10, 0xfe2c_e6e0);
    p := Regs4(c, d, a, b);
    c := II(c, d, a, b, x[6], 15, 0xa301_4314);
    IStep(h, x[..], 58, p, 6, 15, 0xa301_4314);
    p := Regs4(b, c, d, a);
    b := II(b, c, d, a, x[13], 21, 0x4e08_11a1);
    IStep(h, x[..], 59, p, 13, 21, 0x4e08_11a1);
    p := Regs4(a, b, c, d);
    a := II(a, b, c, d, x[4], 6, 0xf753_7e82);
    IStep(h, x[..], 60, p, 4, 6, 0xf753_7e82);
    p := Regs4(d, a, b, c);
    d := II(d, a, b, c, x[11], 10, 0xbd3a_f235);
    IStep(h, x[..], 61, p, 11, 10, 0xbd3a_f235);
    p := Regs4(c, d, a, b);
    c := II(c, d, a, b, x[2], 15, 0x2ad7_d2bb);
    IStep(h, x[..], 62, p, 2, 15, 0x2ad7_d2bb);
    p := Regs4(b, c, d, a);
    b := II(b, c, d, a, x[9], 21, 0xeb86_d391);
    IStep(h, x[..], 63, p, 9, 21, 0xeb86_d391);
  }

  lemma Rows4()
    ensures WordIndex(48) == 0 && Shift(48) == 6
    ensures WordIndex(49) == 7 && Shift(49) == 10
    ensures WordIndex(50) == 14 && Shift(50) == 15
    ensures WordIndex(51) == 5 && Shift(51) == 21
    ensures WordIndex(52) == 12 && Shift(52) == 6
    ensures WordIndex(53) == 3 && Shift(53) == 10
    ensures WordIndex(54) == 10 && Shift(54) == 15
    ensures WordIndex(55) == 1 && Shift(55) == 21
    ensures WordIndex(56) == 8 && Shift(56) == 6
    ensures WordIndex(57) == 15 && Shift(57) == 10
    ensures WordIndex(58) == 6 && Shift(58) == 15
    ensures WordIndex(59) == 13 && Shift(59) == 21
    ensures WordIndex(60) == 4 && Shift(60) == 6
    ensures WordIndex(61) == 11 && Shift(61) == 10
    ensures WordIndex(62) == 2 && Shift(62) == 15
    ensures WordIndex(63) == 9 && Shift(63) == 21
  {}

  lemma Constants4()
    ensures T(48) == 0xf429_2244
    ensures T(49) == 0x432a_ff97
    ensures T(50) == 0xab94_23a7
    ensures T(51) == 0xfc93_a039
    ensures T(52) == 0x655b_59c3
    ensures T(53) == 0x8f0c_cc92
    ensures T(54) == 0xffef_f47d
    ensures T(55) == 0x8584_5dd1
    ensures T(56) == 0x6fa8_7e4f
    ensures T(57) == 0xfe2c_e6e0
    ensures T(58) == 0xa301_4314
    ensures T(59) == 0x4e08_11a1
    ensures T(60) == 0xf753_7e82
    ensures T(61) == 0xbd3a_f235
    ensures T(62) == 0x2ad7_d2bb
    ensures T(63) == 0xeb86_d391
  {}

  // ----- bytes and words

  /** Decode: the sixteen words of the block at data[pos..]. */
  method Decode(x: array<bv32>, data: array<bv8>, pos: nat)
    requires x.Length == 16 && pos + 64 <= data.Length
    modifies x
    ensures x[..] == Words(data[pos..pos + 64])
  {
    hide Word;
    for i := 0 to 16
      invariant forall k :: 0 <= k < i ==> x[k] == Word(data[pos + 4 * k..pos + 4 * k + 4])
    {
      x[i] := Word([data[pos + 4 * i], data[pos + 4 * i + 1], data[pos + 4 * i + 2], data[pos + 4 * i + 3]]);
      assert data[pos + 4 * i..pos + 4 * i + 4]
          == [data[pos + 4 * i], data[pos + 4 * i + 1], data[pos + 4 * i + 2], data[pos + 4 * i + 3]];
    }
    ghost var block := data[pos..pos + 64];
    forall k | 0 <= k < 16
      ensures x[k] == Words(block)[k]
    {
      assert block[4 * k..4 * k + 4] == data[pos + 4 * k..pos + 4 * k + 4];
    }
  }

  /** Encode: words written out, least significant byte first. */
  method Encode(output: array<bv8>, input: array<bv32>)
    requires output.Length >= 4 * input.Length
    modifies output
    ensures output[..4 * input.Length] == Bytes(input[..])
    ensures output[4 * input.Length..] == old(output[4 * input.Length..])
  {
    hide WordBytes;
    for i := 0 to input.Length
      invariant output[..4 * i] == Bytes(input[..i])
      invariant output[4 * input.Length..] == old(output[4 * input.Length..])
    {
      var s := WordBytes(input[i]);
      ghost var done := output[..4 * i];
      output[4 * i], output[4 * i + 1], output[4 * i + 2], output[4 * i + 3] := s[0], s[1], s[2], s[3];
      assert input[..i + 1][..i] == input[..i];
      assert output[..4 * (i + 1)] == done + s;
    }
    assert input[..input.Length] == input[..];
  }

  /** Decode undoes Encode. */
  lemma {:induction false} WordsOfBytes(ws: seq<bv32>)
    ensures Words(Bytes(ws)) == ws
  {
    hide Word, WordBytes;
    if ws != [] {
      var init, w := ws[..|ws| - 1], ws[|ws| - 1];
      WordsOfBytes(init);
      WordOfBytes(w);
      var s := Bytes(ws);
      assert s[4 * |init|..4 * |init| + 4] == WordBytes(w);
      forall k | 0 <= k < |init|
        ensures Words(s)[k] == init[k]
      {
        assert s[4 * k..4 * k + 4] == Bytes(init)[4 * k..4 * k + 4];
        assert Words(Bytes(init))[k] == Word(Bytes(init)[4 * k..4 * k + 4]);
      }
    }
  }

  ghost function StateOf(state: array<bv32>): Regs4
    requires state.Length == 4
    reads state
  {
    Regs4(state[0], state[1], state[2], state[3])
  }

  method Transform(state: array<bv32>, data: array<bv8>, pos: nat)
    requires state.Length == 4 && (state as object) != data && pos + 64 <= data.Length
    modifies state
    ensures StateOf(state) == Compress(old(StateOf(state)), data[pos..pos + 64])
  {
    hide Steps, Words, AddRegs;
    ghost var h := StateOf(state);
    var x := new bv32[16];
    Decode(x, data, pos);
    var a, b, c, d := state[0], state[1], state[2], state[3];
    NoSteps(h, x[..]);
    a, b, c, d := Round1(a, b, c, d, x, h);
    a, b, c, d := Round2(a, b, c, d, x, h);
    a, b, c, d := Round3(a, b, c, d, x, h);
    a, b, c, d := Round4(a, b, c, d, x, h);
    AddState(state, a, b, c, d);
  }

  method AddState(state: array<bv32>, a: bv32, b: bv32, c: bv32, d: bv32)
    requires state.Length == 4
    modifies state
    ensures StateOf(state) == AddRegs(old(StateOf(state)), Regs4(a, b, c, d))
  {
    hide AddRegs;
    var sum := AddRegs(Regs4(state[0], state[1], state[2], state[3]), Regs4(a, b, c, d));
    state[0], state[1], state[2], state[3] := sum.a, sum.b, sum.c, sum.d;
  }

  lemma NoSteps(h: Regs4, x: seq<bv32>)
    requires |x| == 16
    ensures Steps(h, x, 0) == h
  {}
}
