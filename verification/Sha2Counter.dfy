/** The bit counters of sha2.c: one 64-bit word for SHA-256, two for SHA-512 and SHA-384. */
module Sha2Counter {
  import opened BlockStream
  import opened Widths

  /** The counter words; hi stays 0 in the one-word form. */
  datatype Count = Count(lo: nat, hi: nat) {
    predicate Valid(wide: bool) {
      lo < TWO64 && hi < TWO64 && (!wide ==> hi == 0)
    }
  }

  function Modulus(wide: bool): nat {
    if wide then TWO128 else TWO64
  }

  function Value(c: Count): nat {
    c.lo + TWO64 * c.hi
  }

  /** The counter stands for len bytes. */
  ghost predicate Counts(wide: bool, c: Count, len: nat) {
    c.Valid(wide) && Value(c) == 8 * len % Modulus(wide)
  }

  /** `bitcount += n`, or ADDINC128 on two words. */
  function AddBits(wide: bool, c: Count, n: nat): Count {
    var lo := (c.lo + n) % TWO64;
    if wide && lo < n then Count(lo, (c.hi + 1) % TWO64) else Count(lo, c.hi)
  }

  /** ADDINC128 carries exactly when the low word wraps, and so adds modulo 2^128. */
  lemma AddBitsAdds(wide: bool, c: Count, n: nat)
    requires c.Valid(wide) && n < TWO64
    ensures AddBits(wide, c, n).Valid(wide)
    ensures Value(AddBits(wide, c, n)) == (Value(c) + n) % Modulus(wide)
  {
    var d := AddBits(wide, c, n);
    if c.lo + n < TWO64 {
      SmallMod(c.lo + n, TWO64);
      SmallMod(Value(c) + n, Modulus(wide));
    } else {
      ModAddModulus(c.lo + n - TWO64, TWO64);
      SmallMod(c.lo + n - TWO64, TWO64);
      if wide && c.hi + 1 < TWO64 {
        SmallMod(c.hi + 1, TWO64);
        SmallMod(Value(c) + n, TWO128);
      } else if wide {
        ModSelf(TWO64);
        ModAddModulus(Value(c) + n - TWO128, TWO128);
        SmallMod(Value(c) + n - TWO128, TWO128);
      }
    }
  }

  /** `n << 3` on an unsigned int. */
  function ShiftedLength(n: nat): (b: nat)
    ensures b < TWO64
  {
    (8 * n) % TWO32
  }

  /** Counting k more bytes. */
  lemma CountBytes(wide: bool, c: Count, len: nat, k: nat)
    requires Counts(wide, c, len) && k <= 128
    ensures Counts(wide, AddBits(wide, c, ShiftedLength(k)), len + k)
  {
    SmallMod(8 * k, TWO32);
    AddBitsAdds(wide, c, 8 * k);
    ModOfSum(8 * len, 8 * k, Modulus(wide));
  }

  /** The low word alone gives the fill of the partial block. */
  lemma FillFromCount(wide: bool, c: Count, msg: seq<bv8>)
    requires Counts(wide, c, |msg|)
    ensures var n := if wide then 128 else 64; (c.lo / 8) % n == |Rest(n, msg)|
  {
    var q := 8 * |msg| / Modulus(wide);
    if wide {
      WideBlocks(|msg|, q, c);
      FillOf(128, |msg|, TWO128 / 1024 * q + TWO64 / 1024 * c.hi, c.lo / 8);
      RestLength(128, msg);
    } else {
      NarrowBlocks(|msg|, q, c);
      FillOf(64, |msg|, TWO64 / 512 * q, c.lo / 8);
      RestLength(64, msg);
    }
  }

  lemma WideBlocks(len: nat, q: nat, c: Count)
    requires 8 * len == TWO128 * q + Value(c)
    ensures len == 128 * (TWO128 / 1024 * q + TWO64 / 1024 * c.hi) + c.lo / 8
  {
    assert c.lo == 8 * (len - TWO128 / 8 * q - TWO64 / 8 * c.hi);
  }

  lemma NarrowBlocks(len: nat, q: nat, c: Count)
    requires 8 * len == TWO64 * q + Value(c) && c.hi == 0
    ensures len == 64 * (TWO64 / 512 * q) + c.lo / 8
  {
    assert c.lo == 8 * (len - TWO64 / 8 * q);
  }

  // ----- the counter in memory

  /** The length field as FIPS 180-4 pads it: the bit count, big-endian. */
  function LengthField(wide: bool, len: nat): (s: seq<bv8>)
    ensures |s| == if wide then 16 else 8
  {
    BigEndian(8 * len % Modulus(wide), if wide then 16 else 8)
  }

  lemma Pow256Of8()
    ensures Pow256(8) == TWO64
  {
    assert Pow256(4) == TWO32;
    assert Pow256(8) == 0x1_0000_0000 * Pow256(4);
  }

  lemma DigitOfCount(c: Count, k: nat)
    requires c.Valid(true)
    ensures Digit(Value(c), k) == if k < 8 then Digit(c.lo, k) else Digit(c.hi, k - 8)
  {
    Pow256Of8();
    DigitsOfTwoWords(c.lo, c.hi, 8, k);
  }

  /** High word first, each word swapped: the two words lie as one big-endian number. */
  lemma TwoWordField(c: Count)
    requires c.Valid(true)
    ensures BigEndian(c.hi, 8) + BigEndian(c.lo, 8) == BigEndian(Value(c), 16)
  {
    forall k: nat ensures Digit(Value(c), k) == if k < 8 then Digit(c.lo, k) else Digit(c.hi, k - 8) {
      DigitOfCount(c, k);
    }
  }

  /** The swapped words, as the host stores them, are the length field. */
  lemma FieldOfCount(wide: bool, c: Count, len: nat)
    requires Counts(wide, c, len)
    ensures LengthField(wide, len)
         == if wide then LittleEndian(ByteSwap64(c.hi), 8) + LittleEndian(ByteSwap64(c.lo), 8)
            else LittleEndian(ByteSwap64(c.lo), 8)
  {
    SwappedCounterIsBigEndian(c.lo);
    SwappedCounterIsBigEndian(c.hi);
    if wide {
      TwoWordField(c);
    }
  }
}
