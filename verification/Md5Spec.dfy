/** The MD5 compression function of RFC 1321, section 3.4, and its message digest. */
module Md5Spec {
  import opened BlockStream
  import opened Widths
  import opened WordsInMemory

  /** The four-word buffer A, B, C, D. */
  datatype Regs4 = Regs4(a: bv32, b: bv32, c: bv32, d: bv32)

  const IV: Regs4 := Regs4(0x6745_2301, 0xefcd_ab89, 0x98ba_dcfe, 0x1032_5476)

  function Rotl(x: bv32, s: nat): bv32
    requires 0 < s < 32
  {
    (x << s) | (x >> (32 - s))
  }

  function F(x: bv32, y: bv32, z: bv32): bv32 { (x & y) | (!x & z) }
  function G(x: bv32, y: bv32, z: bv32): bv32 { (x & z) | (y & !z) }
  function H(x: bv32, y: bv32, z: bv32): bv32 { x ^ y ^ z }
  function I(x: bv32, y: bv32, z: bv32): bv32 { y ^ (x | !z) }

  /** The auxiliary function of operation i. */
  function Aux(i: nat, x: bv32, y: bv32, z: bv32): bv32
    requires i < 64
  {
    if i < 16 then F(x, y, z)
    else if i < 32 then G(x, y, z)
    else if i < 48 then H(x, y, z)
    else I(x, y, z)
  }

  /** The word that operation i takes. */
  function WordIndex(i: nat): (k: nat)
    requires i < 64
    ensures k < 16
  {
    if i < 16 then i
    else if i < 32 then (5 * i + 1) % 16
    else if i < 48 then (3 * i + 5) % 16
    else 7 * i % 16
  }

  function Pick(j: nat, s0: nat, s1: nat, s2: nat, s3: nat): nat {
    if j % 4 == 0 then s0 else if j % 4 == 1 then s1 else if j % 4 == 2 then s2 else s3
  }

  /** The rotation of operation i. */
  function Shift(i: nat): (s: nat)
    requires i < 64
    ensures 0 < s < 32
  {
    if i < 16 then Pick(i, 7, 12, 17, 22)
    else if i < 32 then Pick(i, 5, 9, 14, 20)
    else if i < 48 then Pick(i, 4, 11, 16, 23)
    else Pick(i, 6, 10, 15, 21)
  }

  // The constants T[1] to T[64] of the RFC, the integer part of 2^32 times abs(sin(i)).

  function T1(j: nat): bv32
    requires j < 16
  {
    match j
    case 0 => 0xd76a_a478
    case 1 => 0xe8c7_b756
    case 2 => 0x2420_70db
    case 3 => 0xc1bd_ceee
    case 4 => 0xf57c_0faf
    case 5 => 0x4787_c62a
    case 6 => 0xa830_4613
    case 7 => 0xfd46_9501
    case 8 => 0x6980_98d8
    case 9 => 0x8b44_f7af
    case 10 => 0xffff_5bb1
    case 11 => 0x895c_d7be
    case 12 => 0x6b90_1122
    case 13 => 0xfd98_7193
    case 14 => 0xa679_438e
    case _ => 0x49b4_0821
  }

  function T2(j: nat): bv32
    requires j < 16
  {
    match j
    case 0 => 0xf61e_2562
    case 1 => 0xc040_b340
    case 2 => 0x265e_5a51
    case 3 => 0xe9b6_c7aa
    case 4 => 0xd62f_105d
    case 5 => 0x0244_1453
    case 6 => 0xd8a1_e681
    case 7 => 0xe7d3_fbc8
    case 8 => 0x21e1_cde6
    case 9 => 0xc337_07d6
    case 10 => 0xf4d5_0d87
    case 11 => 0x455a_14ed
    case 12 => 0xa9e3_e905
    case 13 => 0xfcef_a3f8
    case 14 => 0x676f_02d9
    case _ => 0x8d2a_4c8a
  }

  function T3(j: nat): bv32
    requires j < 16
  {
    match j
    case 0 => 0xfffa_3942
    case 1 => 0x8771_f681
    case 2 => 0x6d9d_6122
    case 3 => 0xfde5_380c
    case 4 => 0xa4be_ea44
    case 5 => 0x4bde_cfa9
    case 6 => 0xf6bb_4b60
    case 7 => 0xbebf_bc70
    case 8 => 0x289b_7ec6
    case 9 => 0xeaa1_27fa
    case 10 => 0xd4ef_3085
    case 11 => 0x0488_1d05
    case 12 => 0xd9d4_d039
    case 13 => 0xe6db_99e5
    case 14 => 0x1fa2_7cf8
    case _ => 0xc4ac_5665
  }

  function T4(j: nat): bv32
    requires j < 16
  {
    match j
    case 0 => 0xf429_2244
    case 1 => 0x432a_ff97
    case 2 => 0xab94_23a7
    case 3 => 0xfc93_a039
    case 4 => 0x655b_59c3
    case 5 => 0x8f0c_cc92
    case 6 => 0xffef_f47d
    case 7 => 0x8584_5dd1
    case 8 => 0x6fa8_7e4f
    case 9 => 0xfe2c_e6e0
    case 10 => 0xa301_4314
    case 11 => 0x4e08_11a1
    case 12 => 0xf753_7e82
    case 13 => 0xbd3a_f235
    case 14 => 0x2ad7_d2bb
    case _ => 0xeb86_d391
  }

  /** The constant of operation i. */
  function T(i: nat): bv32
    requires i < 64
  {
    if i < 16 then T1(i) else if i < 32 then T2(i - 16) else if i < 48 then T3(i - 32) else T4(i - 48)
  }

  /** a = b + ((a + f(b,c,d) + X[k] + T[i]) <<< s). */
  function Op(f: bv32, a: bv32, b: bv32, x: bv32, s: nat, t: bv32): bv32
    requires 0 < s < 32
  {
    b + Rotl(a + f + x + t, s)
  }

  /** Operation i; the roles of the four registers then move round by one. */
  function Step(r: Regs4, x: seq<bv32>, i: nat): Regs4
    requires |x| == 16 && i < 64
  {
    Regs4(r.d, Op(Aux(i, r.b, r.c, r.d), r.a, r.b, x[WordIndex(i)], Shift(i), T(i)), r.b, r.c)
  }

  function Steps(r: Regs4, x: seq<bv32>, n: nat): Regs4
    requires |x| == 16 && n <= 64
  {
    if n == 0 then r else Step(Steps(r, x, n - 1), x, n - 1)
  }

  function AddRegs(p: Regs4, q: Regs4): Regs4 {
    Regs4(p.a + q.a, p.b + q.b, p.c + q.c, p.d + q.d)
  }

  /** The words of a byte string. */
  function Words(s: seq<bv8>): (ws: seq<bv32>)
    requires |s| % 4 == 0
    ensures |ws| == |s| / 4
  {
    seq(|s| / 4, k requires 0 <= k < |s| / 4 => Word(s[4 * k..4 * k + 4]))
  }

  function Bytes(ws: seq<bv32>): (s: seq<bv8>)
    ensures |s| == 4 * |ws|
  {
    if ws == [] then [] else Bytes(ws[..|ws| - 1]) + WordBytes(ws[|ws| - 1])
  }

  /** The next value of the four-word buffer. */
  function Compress(h: Regs4, block: seq<bv8>): Regs4
    requires |block| == 64
  {
    AddRegs(h, Steps(h, Words(block), 64))
  }

  function Compressor(): (Regs4, seq<bv8>) -> Regs4 {
    (h, block) => if |block| == 64 then Compress(h, block) else h
  }

  lemma CompressorCompresses(h: Regs4, block: seq<bv8>)
    requires |block| == 64
    ensures Compressor()(h, block) == Compress(h, block)
  {}

  /** The bit count modulo 2^64, low-order word first (section 3.2). */
  function LengthField(len: nat): (s: seq<bv8>)
    ensures |s| == 8
  {
    LittleEndian(8 * len % TWO64, 8)
  }

  /** The buffer after the whole blocks of data. */
  function State(data: seq<bv8>): Regs4 {
    Blocks(Compressor(), 64, IV, data)
  }

  function RegBytes(h: Regs4): (s: seq<bv8>)
    ensures |s| == 16
  {
    Bytes([h.a, h.b, h.c, h.d])
  }

  /** The message digest of RFC 1321: pad, process the blocks, output A to D. */
  function Digest(msg: seq<bv8>): (d: seq<bv8>)
    ensures |d| == 16
  {
    RegBytes(State(Padded(64, msg, LengthField(|msg|))))
  }
}
