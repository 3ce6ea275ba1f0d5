/** What several modules share. */
module Options {

  datatype Option<+T> = None | Some(value: T)
}

/** The sizes of C integers. */
module Widths {

  const TWO32: nat := 0x1_0000_0000
  const TWO64: nat := 0x1_0000_0000_0000_0000
  const TWO128: nat := 0x1_0000_0000_0000_0000_0000_0000_0000_0000
  const INT_MAX: nat := 0x7fff_ffff
}

/** Words as a little-endian host keeps them. */
module WordsInMemory {

  /** A word, least significant byte first. */
  function Word(s: seq<bv8>): bv32
    requires |s| == 4
  {
    (s[0] as bv32) | ((s[1] as bv32) << 8) | ((s[2] as bv32) << 16) | ((s[3] as bv32) << 24)
  }

  function WordBytes(w: bv32): (s: seq<bv8>)
    ensures |s| == 4
  {
    [(w & 0xff) as bv8, ((w >> 8) & 0xff) as bv8, ((w >> 16) & 0xff) as bv8, ((w >> 24) & 0xff) as bv8]
  }

  lemma WordOfBytes(w: bv32)
    ensures Word(WordBytes(w)) == w
  {
    WordParts(w);
  }

  lemma WordParts(w: bv32)
    ensures ((w & 0xff) as bv8 as bv32) | (((w >> 8) & 0xff) as bv8 as bv32 << 8)
          | (((w >> 16) & 0xff) as bv8 as bv32 << 16) | (((w >> 24) & 0xff) as bv8 as bv32 << 24) == w
  {}

  /** The same for half words. */
  function Half(s: seq<bv8>): bv16
    requires |s| == 2
  {
    (s[0] as bv16) | ((s[1] as bv16) << 8)
  }

  function HalfBytes(w: bv16): (s: seq<bv8>)
    ensures |s| == 2
  {
    [(w & 0xff) as bv8, ((w >> 8) & 0xff) as bv8]
  }

  lemma HalfOfBytes(w: bv16)
    ensures Half(HalfBytes(w)) == w
  {
    HalfParts(w);
  }

  lemma HalfParts(w: bv16)
    ensures ((w & 0xff) as bv8 as bv16) | (((w >> 8) & 0xff) as bv8 as bv16 << 8) == w
  {}
}
