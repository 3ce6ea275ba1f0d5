/**
  The logical functions of the two word algebras of sha2.c by their bits, without their
  formulas (section 4.1 of FIPS 180-4).
 */
module Sha2Bits {
  import opened Sha2Spec
  import opened Sha2Words

  // ----- 32-bit words

  /** What the fields of the algebra are. */
  lemma Fields256(x: bv32, y: bv32, z: bv32, t: nat)
    ensures var g := Algebra256();
            && g.add(x, y) == Add32(x, y) && g.ch(x, y, z) == Ch32(x, y, z) && g.maj(x, y, z) == Maj32(x, y, z)
            && g.bigSigma0(x) == BigSigma0For256(x) && g.bigSigma1(x) == BigSigma1For256(x)
            && g.sigma0(x) == Sigma0For256(x) && g.sigma1(x) == Sigma1For256(x) && g.k(t) == RoundConstant256(t)
  {
    hide Add32, Ch32, Maj32, BigSigma0For256, BigSigma1For256, Sigma0For256, Sigma1For256, RoundConstant256;
  }

  /** ch is y where x is set, and z elsewhere. */
  lemma Ch32Chooses(x: bv32, y: bv32, z: bv32)
    ensures Ch32(x, y, z) & x == y & x && Ch32(x, y, z) & !x == z & !x
  {}

  /** maj is what x and y are where they agree, and z elsewhere. */
  lemma Maj32IsMajority(x: bv32, y: bv32, z: bv32)
    ensures Maj32(x, y, z) & !(x ^ y) == x & !(x ^ y) && Maj32(x, y, z) & (x ^ y) == z & (x ^ y)
  {}

  /** m selects one bit. */
  predicate One32(m: bv32) { m != 0 && m & (m - 1) == 0 }

  /** x has that bit. */
  predicate Hit32(x: bv32, m: bv32) { x & m != 0 }

  /** s is the sum of three words, without carries. */
  predicate Sum32(s: bv32, x: bv32, y: bv32, z: bv32) { s == x ^ y ^ z }

  lemma ThreeBits32(x: bv32, y: bv32, z: bv32, m: bv32)
    requires m != 0 && m & (m - 1) == 0
    ensures ((x ^ y ^ z) & m != 0) == (((x & m != 0) != (y & m != 0)) != (z & m != 0))
  {}

  lemma XorHit32(x: bv32, y: bv32, z: bv32, m: bv32)
    requires One32(m)
    ensures Hit32(x ^ y ^ z, m) == ((Hit32(x, m) != Hit32(y, m)) != Hit32(z, m))
  {
    ThreeBits32(x, y, z, m);
  }

  lemma SumHit32(s: bv32, x: bv32, y: bv32, z: bv32, m: bv32)
    requires One32(m) && Sum32(s, x, y, z)
    ensures Hit32(s, m) == ((Hit32(x, m) != Hit32(y, m)) != Hit32(z, m))
  {
    hide One32, Hit32;
    XorHit32(x, y, z, m);
  }

  lemma TurnedBit32By2(x: bv32, m: bv32)
    ensures (Rotr32By2(x) & m != 0) == (x & ((m << 2) | (m >> 30)) != 0)
  {}

  lemma Turned32By2(x: bv32, m: bv32)
    ensures Hit32(Rotr32By2(x), m) == Hit32(x, (m << 2) | (m >> 30))
  {
    hide Rotr32By2;
    TurnedBit32By2(x, m);
  }

  lemma TurnedBit32By6(x: bv32, m: bv32)
    ensures (Rotr32By6(x) & m != 0) == (x & ((m << 6) | (m >> 26)) != 0)
  {}

  lemma Turned32By6(x: bv32, m: bv32)
    ensures Hit32(Rotr32By6(x), m) == Hit32(x, (m << 6) | (m >> 26))
  {
    hide Rotr32By6;
    TurnedBit32By6(x, m);
  }

  lemma TurnedBit32By7(x: bv32, m: bv32)
    ensures (Rotr32By7(x) & m != 0) == (x & ((m << 7) | (m >> 25)) != 0)
  {}

  lemma Turned32By7(x: bv32, m: bv32)
    ensures Hit32(Rotr32By7(x), m) == Hit32(x, (m << 7) | (m >> 25))
  {
    hide Rotr32By7;
    TurnedBit32By7(x, m);
  }

  lemma TurnedBit32By11(x: bv32, m: bv32)
    ensures (Rotr32By11(x) & m != 0) == (x & ((m << 11) | (m >> 21)) != 0)
  {}

  lemma Turned32By11(x: bv32, m: bv32)
    ensures Hit32(Rotr32By11(x), m) == Hit32(x, (m << 11) | (m >> 21))
  {
    hide Rotr32By11;
    TurnedBit32By11(x, m);
  }

  lemma TurnedBit32By13(x: bv32, m: bv32)
    ensures (Rotr32By13(x) & m != 0) == (x & ((m << 13) | (m >> 19)) != 0)
  {}

  lemma Turned32By13(x: bv32, m: bv32)
    ensures Hit32(Rotr32By13(x), m) == Hit32(x, (m << 13) | (m >> 19))
  {
    hide Rotr32By13;
    TurnedBit32By13(x, m);
  }

  lemma TurnedBit32By17(x: bv32, m: bv32)
    ensures (Rotr32By17(x) & m != 0) == (x & ((m << 17) | (m >> 15)) != 0)
  {}

  lemma Turned32By17(x: bv32, m: bv32)
    ensures Hit32(Rotr32By17(x), m) == Hit32(x, (m << 17) | (m >> 15))
  {
    hide Rotr32By17;
    TurnedBit32By17(x, m);
  }

  lemma TurnedBit32By18(x: bv32, m: bv32)
    ensures (Rotr32By18(x) & m != 0) == (x & ((m << 18) | (m >> 14)) != 0)
  {}

  lemma Turned32By18(x: bv32, m: bv32)
    ensures Hit32(Rotr32By18(x), m) == Hit32(x, (m << 18) | (m >> 14))
  {
    hide Rotr32By18;
    TurnedBit32By18(x, m);
  }

  lemma TurnedBit32By19(x: bv32, m: bv32)
    ensures (Rotr32By19(x) & m != 0) == (x & ((m << 19) | (m >> 13)) != 0)
  {}

  lemma Turned32By19(x: bv32, m: bv32)
    ensures Hit32(Rotr32By19(x), m) == Hit32(x, (m << 19) | (m >> 13))
  {
    hide Rotr32By19;
    TurnedBit32By19(x, m);
  }

  lemma TurnedBit32By22(x: bv32, m: bv32)
    ensures (Rotr32By22(x) & m != 0) == (x & ((m << 22) | (m >> 10)) != 0)
  {}

  lemma Turned32By22(x: bv32, m: bv32)
    ensures Hit32(Rotr32By22(x), m) == Hit32(x, (m << 22) | (m >> 10))
  {
    hide Rotr32By22;
    TurnedBit32By22(x, m);
  }

  lemma TurnedBit32By25(x: bv32, m: bv32)
    ensures (Rotr32By25(x) & m != 0) == (x & ((m << 25) | (m >> 7)) != 0)
  {}

  lemma Turned32By25(x: bv32, m: bv32)
    ensures Hit32(Rotr32By25(x), m) == Hit32(x, (m << 25) | (m >> 7))
  {
    hide Rotr32By25;
    TurnedBit32By25(x, m);
  }

  lemma Shr32By3(x: bv32, m: bv32)
    requires One32(m)
    ensures Hit32(x >> 3, m) == Hit32(x, m << 3)
  {}

  lemma Shr32By10(x: bv32, m: bv32)
    requires One32(m)
    ensures Hit32(x >> 10, m) == Hit32(x, m << 10)
  {}

  /** Each bit of BigSigma0For256 is the sum of the three bits 2, 13 and 22 places up, round the end. */
  lemma BigSigma0Bits256(x: bv32, m: bv32)
    requires One32(m)
    ensures Hit32(BigSigma0For256(x), m)
         == ((Hit32(x, (m << 2) | (m >> 30)) != Hit32(x, (m << 13) | (m >> 19)))
             != Hit32(x, (m << 22) | (m >> 10)))
  {
    hide Hit32, Rotr32By2, Rotr32By13, Rotr32By22, One32, Sum32, BigSigma0For256;
    BigSigma0Is256(x);
    Turned32By2(x, m);
    Turned32By13(x, m);
    Turned32By22(x, m);
    SumHit32(BigSigma0For256(x), Rotr32By2(x), Rotr32By13(x), Rotr32By22(x), m);
  }

  lemma BigSigma0Is256(x: bv32)
    ensures Sum32(BigSigma0For256(x), Rotr32By2(x), Rotr32By13(x), Rotr32By22(x))
  {
    hide Rotr32By2, Rotr32By13, Rotr32By22;
  }

  /** Each bit of BigSigma1For256 is the sum of the three bits 6, 11 and 25 places up, round the end. */
  lemma BigSigma1Bits256(x: bv32, m: bv32)
    requires One32(m)
    ensures Hit32(BigSigma1For256(x), m)
         == ((Hit32(x, (m << 6) | (m >> 26)) != Hit32(x, (m << 11) | (m >> 21)))
             != Hit32(x, (m << 25) | (m >> 7)))
  {
    hide Hit32, Rotr32By6, Rotr32By11, Rotr32By25, One32, Sum32, BigSigma1For256;
    BigSigma1Is256(x);
    Turned32By6(x, m);
    Turned32By11(x, m);
    Turned32By25(x, m);
    SumHit32(BigSigma1For256(x), Rotr32By6(x), Rotr32By11(x), Rotr32By25(x), m);
  }

  lemma BigSigma1Is256(x: bv32)
    ensures Sum32(BigSigma1For256(x), Rotr32By6(x), Rotr32By11(x), Rotr32By25(x))
  {
    hide Rotr32By6, Rotr32By11, Rotr32By25;
  }

  /** Each bit of Sigma0For256 is the sum of the three bits 7 and 18 places up, round the end,
      and 3 places up, where there is one. */
  lemma Sigma0Bits256(x: bv32, m: bv32)
    requires One32(m)
    ensures Hit32(Sigma0For256(x), m)
         == ((Hit32(x, (m << 7) | (m >> 25)) != Hit32(x, (m << 18) | (m >> 14)))
             != Hit32(x, m << 3))
  {
    hide Hit32, Rotr32By7, Rotr32By18, One32, Sum32, Sigma0For256;
    Sigma0Is256(x);
    Turned32By7(x, m);
    Turned32By18(x, m);
    Shr32By3(x, m);
    SumHit32(Sigma0For256(x), Rotr32By7(x), Rotr32By18(x), x >> 3, m);
  }

  lemma Sigma0Is256(x: bv32)
    ensures Sum32(Sigma0For256(x), Rotr32By7(x), Rotr32By18(x), x >> 3)
  {
    hide Rotr32By7, Rotr32By18;
  }

  /** Each bit of Sigma1For256 is the sum of the three bits 17 and 19 places up, round the end,
      and 10 places up, where there is one. */
  lemma Sigma1Bits256(x: bv32, m: bv32)
    requires One32(m)
    ensures Hit32(Sigma1For256(x), m)
         == ((Hit32(x, (m << 17) | (m >> 15)) != Hit32(x, (m << 19) | (m >> 13)))
             != Hit32(x, m << 10))
  {
    hide Hit32, Rotr32By17, Rotr32By19, One32, Sum32, Sigma1For256;
    Sigma1Is256(x);
    Turned32By17(x, m);
    Turned32By19(x, m);
    Shr32By10(x, m);
    SumHit32(Sigma1For256(x), Rotr32By17(x), Rotr32By19(x), x >> 10, m);
  }

  lemma Sigma1Is256(x: bv32)
    ensures Sum32(Sigma1For256(x), Rotr32By17(x), Rotr32By19(x), x >> 10)
  {
    hide Rotr32By17, Rotr32By19;
  }

  // ----- 64-bit words

  /** What the fields of the algebra are. */
  lemma Fields512(x: bv64, y: bv64, z: bv64, t: nat)
    ensures var g := Algebra512();
            && g.add(x, y) == Add64(x, y) && g.ch(x, y, z) == Ch64(x, y, z) && g.maj(x, y, z) == Maj64(x, y, z)
            && g.bigSigma0(x) == BigSigma0For512(x) && g.bigSigma1(x) == BigSigma1For512(x)
            && g.sigma0(x) == Sigma0For512(x) && g.sigma1(x) == Sigma1For512(x) && g.k(t) == RoundConstant512(t)
  {
    hide Add64, Ch64, Maj64, BigSigma0For512, BigSigma1For512, Sigma0For512, Sigma1For512, RoundConstant512;
  }

  /** ch is y where x is set, and z elsewhere. */
  lemma Ch64Chooses(x: bv64, y: bv64, z: bv64)
    ensures Ch64(x, y, z) & x == y & x && Ch64(x, y, z) & !x == z & !x
  {}

  /** maj is what x and y are where they agree, and z elsewhere. */
  lemma Maj64IsMajority(x: bv64, y: bv64, z: bv64)
    ensures Maj64(x, y, z) & !(x ^ y) == x & !(x ^ y) && Maj64(x, y, z) & (x ^ y) == z & (x ^ y)
  {}

  /** m selects one bit. */
  predicate One64(m: bv64) { m != 0 && m & (m - 1) == 0 }

  /** x has that bit. */
  predicate Hit64(x: bv64, m: bv64) { x & m != 0 }

  /** s is the sum of three words, without carries. */
  predicate Sum64(s: bv64, x: bv64, y: bv64, z: bv64) { s == x ^ y ^ z }

  lemma ThreeBits64(x: bv64, y: bv64, z: bv64, m: bv64)
    requires m != 0 && m & (m - 1) == 0
    ensures ((x ^ y ^ z) & m != 0) == (((x & m != 0) != (y & m != 0)) != (z & m != 0))
  {}

  lemma XorHit64(x: bv64, y: bv64, z: bv64, m: bv64)
    requires One64(m)
    ensures Hit64(x ^ y ^ z, m) == ((Hit64(x, m) != Hit64(y, m)) != Hit64(z, m))
  {
    ThreeBits64(x, y, z, m);
  }

  lemma SumHit64(s: bv64, x: bv64, y: bv64, z: bv64, m: bv64)
    requires One64(m) && Sum64(s, x, y, z)
    ensures Hit64(s, m) == ((Hit64(x, m) != Hit64(y, m)) != Hit64(z, m))
  {
    hide One64, Hit64;
    XorHit64(x, y, z, m);
  }

  lemma TurnedBit64By1(x: bv64, m: bv64)
    ensures (Rotr64By1(x) & m != 0) == (x & ((m << 1) | (m >> 63)) != 0)
  {}

  lemma Turned64By1(x: bv64, m: bv64)
    ensures Hit64(Rotr64By1(x), m) == Hit64(x, (m << 1) | (m >> 63))
  {
    hide Rotr64By1;
    TurnedBit64By1(x, m);
  }

  lemma TurnedBit64By8(x: bv64, m: bv64)
    ensures (Rotr64By8(x) & m != 0) == (x & ((m << 8) | (m >> 56)) != 0)
  {}

  lemma Turned64By8(x: bv64, m: bv64)
    ensures Hit64(Rotr64By8(x), m) == Hit64(x, (m << 8) | (m >> 56))
  {
    hide Rotr64By8;
    TurnedBit64By8(x, m);
  }

  lemma TurnedBit64By14(x: bv64, m: bv64)
    ensures (Rotr64By14(x) & m != 0) == (x & ((m << 14) | (m >> 50)) != 0)
  {}

  lemma Turned64By14(x: bv64, m: bv64)
    ensures Hit64(Rotr64By14(x), m) == Hit64(x, (m << 14) | (m >> 50))
  {
    hide Rotr64By14;
    TurnedBit64By14(x, m);
  }

  lemma TurnedBit64By18(x: bv64, m: bv64)
    ensures (Rotr64By18(x) & m != 0) == (x & ((m << 18) | (m >> 46)) != 0)
  {}

  lemma Turned64By18(x: bv64, m: bv64)
    ensures Hit64(Rotr64By18(x), m) == Hit64(x, (m << 18) | (m >> 46))
  {
    hide Rotr64By18;
    TurnedBit64By18(x, m);
  }

  lemma TurnedBit64By19(x: bv64, m: bv64)
    ensures (Rotr64By19(x) & m != 0) == (x & ((m << 19) | (m >> 45)) != 0)
  {}

  lemma Turned64By19(x: bv64, m: bv64)
    ensures Hit64(Rotr64By19(x), m) == Hit64(x, (m << 19) | (m >> 45))
  {
    hide Rotr64By19;
    TurnedBit64By19(x, m);
  }

  lemma TurnedBit64By28(x: bv64, m: bv64)
    ensures (Rotr64By28(x) & m != 0) == (x & ((m << 28) | (m >> 36)) != 0)
  {}

  lemma Turned64By28(x: bv64, m: bv64)
    ensures Hit64(Rotr64By28(x), m) == Hit64(x, (m << 28) | (m >> 36))
  {
    hide Rotr64By28;
    TurnedBit64By28(x, m);
  }

  lemma TurnedBit64By34(x: bv64, m: bv64)
    ensures (Rotr64By34(x) & m != 0) == (x & ((m << 34) | (m >> 30)) != 0)
  {}

  lemma Turned64By34(x: bv64, m: bv64)
    ensures Hit64(Rotr64By34(x), m) == Hit64(x, (m << 34) | (m >> 30))
  {
    hide Rotr64By34;
    TurnedBit64By34(x, m);
  }

  lemma TurnedBit64By39(x: bv64, m: bv64)
    ensures (Rotr64By39(x) & m != 0) == (x & ((m << 39) | (m >> 25)) != 0)
  {}

  lemma Turned64By39(x: bv64, m: bv64)
    ensures Hit64(Rotr64By39(x), m) == Hit64(x, (m << 39) | (m >> 25))
  {
    hide Rotr64By39;
    TurnedBit64By39(x, m);
  }

  lemma TurnedBit64By41(x: bv64, m: bv64)
    ensures (Rotr64By41(x) & m != 0) == (x & ((m << 41) | (m >> 23)) != 0)
  {}

  lemma Turned64By41(x: bv64, m: bv64)
    ensures Hit64(Rotr64By41(x), m) == Hit64(x, (m << 41) | (m >> 23))
  {
    hide Rotr64By41;
    TurnedBit64By41(x, m);
  }

  lemma TurnedBit64By61(x: bv64, m: bv64)
    ensures (Rotr64By61(x) & m != 0) == (x & ((m << 61) | (m >> 3)) != 0)
  {}

  lemma Turned64By61(x: bv64, m: bv64)
    ensures Hit64(Rotr64By61(x), m) == Hit64(x, (m << 61) | (m >> 3))
  {
    hide Rotr64By61;
    TurnedBit64By61(x, m);
  }

  lemma Shr64By6(x: bv64, m: bv64)
    requires One64(m)
    ensures Hit64(x >> 6, m) == Hit64(x, m << 6)
  {}

  lemma Shr64By7(x: bv64, m: bv64)
    requires One64(m)
    ensures Hit64(x >> 7, m) == Hit64(x, m << 7)
  {}

  /** Each bit of BigSigma0For512 is the sum of the three bits 28, 34 and 39 places up, round the end. */
  lemma BigSigma0Bits512(x: bv64, m: bv64)
    requires One64(m)
    ensures Hit64(BigSigma0For512(x), m)
         == ((Hit64(x, (m << 28) | (m >> 36)) != Hit64(x, (m << 34) | (m >> 30)))
             != Hit64(x, (m << 39) | (m >> 25)))
  {
    hide Hit64, Rotr64By28, Rotr64By34, Rotr64By39, One64, Sum64, BigSigma0For512;
    BigSigma0Is512(x);
    Turned64By28(x, m);
    Turned64By34(x, m);
    Turned64By39(x, m);
    SumHit64(BigSigma0For512(x), Rotr64By28(x), Rotr64By34(x), Rotr64By39(x), m);
  }

  lemma BigSigma0Is512(x: bv64)
    ensures Sum64(BigSigma0For512(x), Rotr64By28(x), Rotr64By34(x), Rotr64By39(x))
  {
    hide Rotr64By28, Rotr64By34, Rotr64By39;
  }

  /** Each bit of BigSigma1For512 is the sum of the three bits 14, 18 and 41 places up, round the end. */
  lemma BigSigma1Bits512(x: bv64, m: bv64)
    requires One64(m)
    ensures Hit64(BigSigma1For512(x), m)
         == ((Hit64(x, (m << 14) | (m >> 50)) != Hit64(x, (m << 18) | (m >> 46)))
             != Hit64(x, (m << 41) | (m >> 23)))
  {
    hide Hit64, Rotr64By14, Rotr64By18, Rotr64By41, One64, Sum64, BigSigma1For512;
    BigSigma1Is512(x);
    Turned64By14(x, m);
    Turned64By18(x, m);
    Turned64By41(x, m);
    SumHit64(BigSigma1For512(x), Rotr64By14(x), Rotr64By18(x), Rotr64By41(x), m);
  }

  lemma BigSigma1Is512(x: bv64)
    ensures Sum64(BigSigma1For512(x), Rotr64By14(x), Rotr64By18(x), Rotr64By41(x))
  {
    hide Rotr64By14, Rotr64By18, Rotr64By41;
  }

  /** Each bit of Sigma0For512 is the sum of the three bits 1 and 8 places up, round the end,
      and 7 places up, where there is one. */
  lemma Sigma0Bits512(x: bv64, m: bv64)
    requires One64(m)
    ensures Hit64(Sigma0For512(x), m)
         == ((Hit64(x, (m << 1) | (m >> 63)) != Hit64(x, (m << 8) | (m >> 56)))
             != Hit64(x, m << 7))
  {
    hide Hit64, Rotr64By1, Rotr64By8, One64, Sum64, Sigma0For512;
    Sigma0Is512(x);
    Turned64By1(x, m);
    Turned64By8(x, m);
    Shr64By7(x, m);
    SumHit64(Sigma0For512(x), Rotr64By1(x), Rotr64By8(x), x >> 7, m);
  }

  lemma Sigma0Is512(x: bv64)
    ensures Sum64(Sigma0For512(x), Rotr64By1(x), Rotr64By8(x), x >> 7)
  {
    hide Rotr64By1, Rotr64By8;
  }

  /** Each bit of Sigma1For512 is the sum of the three bits 19 and 61 places up, round the end,
      and 6 places up, where there is one. */
  lemma Sigma1Bits512(x: bv64, m: bv64)
    requires One64(m)
    ensures Hit64(Sigma1For512(x), m)
         == ((Hit64(x, (m << 19) | (m >> 45)) != Hit64(x, (m << 61) | (m >> 3)))
             != Hit64(x, m << 6))
  {
    hide Hit64, Rotr64By19, Rotr64By61, One64, Sum64, Sigma1For512;
    Sigma1Is512(x);
    Turned64By19(x, m);
    Turned64By61(x, m);
    Shr64By6(x, m);
    SumHit64(Sigma1For512(x), Rotr64By19(x), Rotr64By61(x), x >> 6, m);
  }

  lemma Sigma1Is512(x: bv64)
    ensures Sum64(Sigma1For512(x), Rotr64By19(x), Rotr64By61(x), x >> 6)
  {
    hide Rotr64By19, Rotr64By61;
  }
}
