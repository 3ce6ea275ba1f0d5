/** The MD5 context of md5.c: MD5_Init, MD5_Update and MD5_Final. */
module Md5Stream {
  import opened BlockStream
  import opened Widths
  import opened Chunks
  import opened Memory
  import opened Md5Spec
  import opened Md5Transform

  // ----- the bit counter in two 32-bit words

  datatype Count = Count(lo: nat, hi: nat)

  function Value(c: Count): nat {
    c.lo + TWO32 * c.hi
  }

  ghost predicate Counts(c: Count, len: nat) {
    c.lo < TWO32 && c.hi < TWO32 && Value(c) == 8 * len % TWO64
  }

  /** `len << 3` goes to the low word, the carry and `len >> 29` to the high one. */
  function AddLength(c: Count, len: nat): Count {
    var bits := 8 * len % TWO32;
    var lo := (c.lo + bits) % TWO32;
    var hi := if lo < bits then (c.hi + 1) % TWO32 else c.hi;
    Count(lo, (hi + len / 0x2000_0000) % TWO32)
  }

  /** A sum of two words, wrapped, is less than the second exactly when it wrapped. */
  lemma CarryOut(x: nat, y: nat)
    requires x < TWO32 && y < TWO32
    ensures (x + y) % TWO32 == if (x + y) % TWO32 < y then x + y - TWO32 else x + y
  {}

  /** The high words, reduced one at a time. */
  lemma HighWord(hi: nat, carry: nat, top: nat)
    requires carry <= 1
    ensures ((if carry == 1 then (hi + 1) % TWO32 else hi) + top) % TWO32 == (hi + carry + top) % TWO32
  {
    if carry == 1 {
      ModOfSum(hi + 1, top, TWO32);
    }
  }

  lemma AddLengthAdds(c: Count, len: nat)
    requires c.lo < TWO32 && c.hi < TWO32
    ensures AddLength(c, len).lo < TWO32 && AddLength(c, len).hi < TWO32
    ensures Value(AddLength(c, len)) == (Value(c) + 8 * len) % TWO64
  {
    var bits, top := 8 * len % TWO32, len / 0x2000_0000;
    assert 8 * len == bits + TWO32 * top;
    var d := AddLength(c, len);
    CarryOut(c.lo, bits);
    var carry := if d.lo < bits then 1 else 0;
    HighWord(c.hi, carry, top);
    var high := c.hi + carry + top;
    assert Value(c) + 8 * len == d.lo + TWO32 * high;
    assert high == TWO32 * (high / TWO32) + d.hi;
    assert Value(c) + 8 * len == TWO64 * (high / TWO32) + Value(d);
    UniqueQuotient(TWO64, high / TWO32, Value(d), (Value(c) + 8 * len) / TWO64, (Value(c) + 8 * len) % TWO64);
  }

  lemma CountBytes(c: Count, len: nat, k: nat)
    requires Counts(c, len)
    ensures Counts(AddLength(c, k), len + k)
  {
    hide AddLength;
    AddLengthAdds(c, k);
    ModOfSum(8 * len, 8 * k, TWO64);
  }

  /** The low word alone gives the fill of the partial block. */
  lemma FillFromCount(c: Count, msg: seq<bv8>)
    requires Counts(c, |msg|)
    ensures c.lo / 8 % 64 == |Rest(64, msg)|
  {
    var q := 8 * |msg| / TWO64;
    assert 8 * |msg| == TWO64 * q + c.lo + TWO32 * c.hi;
    assert c.lo == 8 * (|msg| - TWO64 / 8 * q - TWO32 / 8 * c.hi);
    FillOf(64, |msg|, TWO64 / 512 * q + TWO32 / 512 * c.hi, c.lo / 8);
    RestLength(64, msg);
  }

  /** The two words written out one after the other are the length field. */
  lemma FieldOfCount(c: Count, len: nat)
    requires Counts(c, len)
    ensures LittleEndian(c.lo, 4) + LittleEndian(c.hi, 4) == LengthField(len)
  {
    assert Pow256(4) == TWO32;
    forall k: nat | k < 8
      ensures Digit(Value(c), k) == if k < 4 then Digit(c.lo, k) else Digit(c.hi, k - 4)
    {
      DigitsOfTwoWords(c.lo, c.hi, 4, k);
    }
  }

  /** PADDING. */
  function Padding(): (p: seq<bv8>)
    ensures |p| == 64
  {
    [0x80] + Zeros(63)
  }

  /** The bytes of PADDING that MD5_Final takes, and then the length, are the padding of
      the message. */
  lemma PaddingFits(msg: seq<bv8>, used: nat, padLen: nat, field: seq<bv8>)
    requires used == |Rest(64, msg)| && |field| == 8 && padLen == if used < 56 then 56 - used else 120 - used
    ensures msg + Padding()[..padLen] + field == Padded(64, msg, field)
    ensures Rest(64, Padded(64, msg, field)) == []
  {
    RestLength(64, msg);
    PadZerosByRest(64, 8, |msg|);
    assert Padding()[..padLen] == [0x80] + Zeros(padLen - 1);
    PaddedIsWhole(64, msg, field);
    RestLength(64, Padded(64, msg, field));
  }

  class Context {
    const state: array<bv32>
    const buffer: array<bv8>
    var count: Count
    ghost var msg: seq<bv8>         // every byte absorbed since MD5_Init

    ghost predicate Shape()
      reads this
    {
      state.Length == 4 && buffer.Length == 64 && (state as object) != buffer
    }

    /** The state has taken the whole blocks of m, the buffer holds the rest. */
    ghost predicate Hashed(m: seq<bv8>)
      reads this, state, buffer
    {
      Shape() && StateOf(state) == State(m) && buffer[..|Rest(64, m)|] == Rest(64, m)
    }

    ghost predicate Valid()
      reads this, state, buffer
    {
      Hashed(msg) && Counts(count, |msg|)
    }

    constructor ()
      ensures Valid() && msg == []
      ensures fresh(state) && fresh(buffer)
    {
      state := new bv32[4];
      buffer := new bv8[64];
      new;
      Init();
    }

    /** MD5_Init. */
    method Init()
      requires Shape()
      modifies this, state
      ensures Valid() && msg == []
    {
      count := Count(0, 0);
      state[0], state[1], state[2], state[3] := IV.a, IV.b, IV.c, IV.d;
      msg := [];
    }

    /** The block at data[pos..]: what was kept of m, and a chunk that completes it. */
    method Hash(data: array<bv8>, pos: nat, ghost m: seq<bv8>, ghost chunk: seq<bv8>)
      requires Shape() && StateOf(state) == State(m)
      requires (state as object) != data && pos + 64 <= data.Length
      requires data[pos..pos + 64] == Rest(64, m) + chunk
      modifies state
      ensures StateOf(state) == State(m + chunk) && Rest(64, m + chunk) == []
    {
      hide Compress, Compressor, Blocks, Rest;
      AbsorbBlock(Compressor(), 64, IV, m, chunk);
      CompressorCompresses(StateOf(state), data[pos..pos + 64]);
      Transform(state, data, pos);
    }

    /** Bytes that do not complete the block are kept behind those already there. */
    method Keep(data: array<bv8>, pos: nat, used: nat, k: nat, ghost m: seq<bv8>)
      requires Hashed(m) && data != buffer && (state as object) != data && pos + k <= data.Length
      requires used == |Rest(64, m)| && used + k < 64
      modifies buffer
      ensures Hashed(m + data[pos..pos + k])
    {
      hide Compress, Compressor, Blocks, Rest;
      AbsorbPartial(Compressor(), 64, IV, m, data[pos..pos + k]);
      CopyBytes(buffer, used, data, pos, k);
    }

    /** The first bytes complete the partial block, whole blocks follow from the caller's memory. */
    method Blockwise(data: array<bv8>, len: nat, used: nat, ghost m: seq<bv8>) returns (i: nat)
      requires Hashed(m) && data != buffer && (state as object) != data && len <= data.Length && len + 63 <= INT_MAX
      requires used == |Rest(64, m)| && len >= 64 - used
      modifies state, buffer
      ensures i <= len < i + 64 && Hashed(m + data[..i]) && Rest(64, m + data[..i]) == []
    {
      hide State, Rest;
      var partLen := 64 - used;
      CopyBytes(buffer, used, data, 0, partLen);
      assert buffer[0..64] == Rest(64, m) + data[..partLen];
      Hash(buffer, 0, m, data[..partLen]);
      i := partLen;
      while i + 63 < len
        invariant partLen <= i <= len
        invariant StateOf(state) == State(m + data[..i]) && Rest(64, m + data[..i]) == []
      {
        assert data[i..i + 64] == [] + data[i..i + 64];
        Joined(m, data, 0, i, i + 64);
        Hash(data, i, m + data[..i], data[i..i + 64]);
        i := i + 64;
      }
    }

    /** MD5_Update. */
    method Update(data: array<bv8>, len: nat)
      requires Valid() && data != buffer && (state as object) != data && len <= data.Length && len + 63 <= INT_MAX
      modifies this`count, this`msg, state, buffer
      ensures Valid() && msg == old(msg) + data[..len]
    {
      hide State, Rest, Counts, AddLength;
      var x := count.lo / 8 % 64;
      FillFromCount(count, msg);
      CountBytes(count, |msg|, len);
      count := AddLength(count, len);
      var partLen := 64 - x;
      var i := 0;
      if len >= partLen {
        i := Blockwise(data, len, x, msg);
        x := 0;
        Joined(msg, data, 0, i, len);
      } else {
        assert msg + data[..0] == msg;
      }
      assert data[..len] == data[0..len];
      Keep(data, i, x, len - i, msg + data[..i]);
      msg := msg + data[..len];
    }

    /** MD5_Final: the padding and the length go through MD5_Update themselves. */
    method Final(digest: array<bv8>)
      requires Valid() && digest != buffer && (state as object) != digest && digest.Length >= 16
      modifies this`count, this`msg, state, buffer, digest
      ensures digest[..16] == Digest(old(msg))
      ensures digest[16..] == old(digest[16..])
    {
      hide State, Rest, Counts;
      var bits := new bv8[8];
      ghost var field := LengthField(|msg|);
      StoreCount(bits, count);
      FieldOfCount(count, |msg|);
      var x := count.lo / 8 % 64;
      FillFromCount(count, msg);
      var padLen := if x < 56 then 56 - x else 120 - x;
      var padding := new bv8[64](k requires 0 <= k < 64 => Padding()[k]);
      assert padding[..] == Padding();
      PaddingFits(msg, x, padLen, field);
      Update(padding, padLen);
      assert padding[..padLen] == Padding()[..padLen];
      Update(bits, 8);
      assert bits[..8] == field;
      Encode(digest, state);
      assert state[..] == [state[0], state[1], state[2], state[3]];
    }
  }

  /** Encode of the two counter words. */
  method StoreCount(bits: array<bv8>, c: Count)
    requires bits.Length == 8
    modifies bits
    ensures bits[..] == LittleEndian(c.lo, 4) + LittleEndian(c.hi, 4)
  {
    StoreBytes(bits, 0, LittleEndian(c.lo, 4));
    StoreBytes(bits, 4, LittleEndian(c.hi, 4));
  }

  /** A message hashed in any number of pieces of any length. */
  method HashChunks(chunks: seq<seq<bv8>>) returns (digest: seq<bv8>)
    requires forall i :: 0 <= i < |chunks| ==> |chunks[i]| + 63 <= INT_MAX
    ensures digest == Digest(Flatten(chunks))
  {
    hide Digest, Rest, Counts, State;
    var ctx := new Context();
    for i := 0 to |chunks|
      invariant ctx.Valid() && ctx.msg == Flatten(chunks[..i])
      invariant fresh(ctx) && fresh(ctx.state) && fresh(ctx.buffer)
    {
      var chunk := chunks[i];
      var data := new bv8[|chunk|](k requires 0 <= k < |chunk| => chunk[k]);
      assert data[..|chunk|] == chunk;
      assert chunks[..i + 1][..i] == chunks[..i];
      ctx.Update(data, |chunk|);
    }
    assert chunks[..|chunks|] == chunks;
    var out := new bv8[16];
    ctx.Final(out);
    digest := out[..];
    assert out[..16] == out[..];
  }
}
