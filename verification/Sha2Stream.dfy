/**
  The SHA-2 contexts of sha2.c: Init, Update, Last and Final.  The source writes them out
  for 32-bit and for 64-bit words; a `Variant` holds what differs.
 */
module Sha2Stream {
  import opened BlockStream
  import opened Widths
  import opened Chunks
  import opened Memory
  import opened Sha2Counter
  import opened Sha2Spec
  import opened Sha2Transform
  import opened Sha2Words

  datatype Variant<!W> = Variant(
    machine: Machine<W>,
    iv: Regs<W>,
    wide: bool,                     // a 128-bit counter in two words
    cleared: nat,                   // bytes zeroed before the length, when it needs a block of its own
    digestWords: nat,
    wipes: bool)                    // Final zeroes the whole context

  function BlockLength<W>(v: Variant<W>): nat {
    if v.wide then 128 else 64
  }

  /** Where the length field starts: SHA256_SHORT_BLOCK_LENGTH and its 64-bit twins. */
  function ShortBlock<W>(v: Variant<W>): nat {
    if v.wide then 112 else 56
  }

  ghost predicate Supported<W(!new)>(v: Variant<W>) {
    && Lawful(v.machine)
    && v.machine.alg.bytes == (if v.wide then 8 else 4)
    && ShortBlock(v) <= v.cleared <= BlockLength(v)
    && v.digestWords <= 8
  }

  /** The hash value of the whole blocks of data. */
  function State<W>(v: Variant<W>, data: seq<bv8>): Regs<W> {
    Blocks(Compressor(v.machine.alg), BlockLength(v), v.iv, data)
  }

  /** The message digest of FIPS 180-4: pad (5.1), hash the blocks (6.2, 6.4), and write
      the leading words out (all eight, or six for SHA-384 as in 6.5). */
  function Digest<W>(v: Variant<W>, msg: seq<bv8>): seq<bv8>
    requires v.digestWords <= 8
  {
    var h := State(v, Padded(BlockLength(v), msg, LengthField(v.wide, |msg|)));
    WordBytes(v.machine.alg, HashWords(h)[..v.digestWords])
  }

  lemma OutputWord<W(!new)>(m: Machine<W>, w: W)
    requires Lawful(m) && LawfulOutput(m)
    ensures m.store(m.swap(w)) == m.alg.toBigEndian(w) && |m.store(m.swap(w))| == m.alg.bytes
  {}

  lemma WordBytesStep<W>(alg: Algebra<W>, ws: seq<W>, w: W)
    ensures WordBytes(alg, []) == []
    ensures WordBytes(alg, ws + [w]) == WordBytes(alg, ws) + alg.toBigEndian(w)
  {
    assert (ws + [w])[..|ws|] == ws;
  }

  lemma RoomForWord(bytes: nat, j: nat, words: nat)
    requires j < words
    ensures bytes * j + bytes == bytes * (j + 1) <= bytes * words
  {}

  class Context<W(!new, 0)> {
    const v: Variant<W>
    const state: array<W>
    const buffer: array<bv8>
    var bitcount: Count
    ghost var msg: seq<bv8>         // every byte absorbed since Init
    ghost var counted: nat          // how many bytes bitcount stands for

    ghost predicate Shape()
      reads this
    {
      && Supported(v)
      && state.Length == 8 && buffer.Length == BlockLength(v)
      && (state as object) != buffer
    }

    /** The state has hashed the whole blocks, the buffer holds the rest. */
    ghost predicate Hashed()
      reads this, state, buffer
    {
      && Shape()
      && StateOf(state) == State(v, msg)
      && buffer[..|Rest(BlockLength(v), msg)|] == Rest(BlockLength(v), msg)
    }

    ghost predicate Valid()
      reads this, state, buffer
    {
      Hashed() && Counts(v.wide, bitcount, counted) && counted == |msg|
    }

    constructor (v: Variant<W>)
      requires Supported(v)
      ensures Valid() && msg == [] && this.v == v
      ensures fresh(state) && fresh(buffer)
    {
      this.v := v;
      state := new W[8];
      buffer := new bv8[BlockLength(v)];
      new;
      Init();
    }

    method Init()
      requires Shape()
      modifies this, state, buffer
      ensures Valid() && msg == []
    {
      hide Lawful, Compress, Compressor, Blocks, Rest, StateOf;
      NothingYet(Compressor(v.machine.alg), BlockLength(v), v.iv);
      SetState(state, v.iv);
      ClearBytes(buffer, 0, BlockLength(v));
      bitcount := Count(0, 0);
      msg, counted := [], 0;
    }

    /** `bitcount += k << 3`. */
    method Tally(k: nat)
      requires Counts(v.wide, bitcount, counted) && k <= 128
      modifies this`bitcount, this`counted
      ensures Counts(v.wide, bitcount, counted) && counted == old(counted) + k
    {
      hide Lawful, Compress, Schedule;
      CountBytes(v.wide, bitcount, counted, k);
      bitcount := AddBits(v.wide, bitcount, ShiftedLength(k));
      counted := counted + k;
    }

    /** The partial block takes k more bytes and stays partial. */
    method Keep(data: array<bv8>, pos: nat, used: nat, k: nat)
      requires Valid() && data != buffer && pos + k <= data.Length
      requires used == |Rest(BlockLength(v), msg)| && used + k < BlockLength(v)
      modifies this`bitcount, this`counted, this`msg, buffer
      ensures Valid() && msg == old(msg) + data[pos..pos + k]
    {
      hide Lawful, Compress, Compressor, Blocks, Rest, Counts;
      CopyBytes(buffer, used, data, pos, k);
      Tally(k);
      AbsorbPartial(Compressor(v.machine.alg), BlockLength(v), v.iv, msg, data[pos..pos + k]);
      msg := msg + data[pos..pos + k];
    }

    /** The partial block and a chunk that completes it, lying together at data[pos..]. */
    method HashAt(data: array<bv8>, pos: nat, ghost chunk: seq<bv8>)
      requires Shape() && StateOf(state) == State(v, msg)
      requires (state as object) != data && pos + BlockLength(v) <= data.Length && (data == buffer ==> pos == 0)
      requires data[pos..pos + BlockLength(v)] == Rest(BlockLength(v), msg) + chunk
      modifies state, buffer
      ensures StateOf(state) == State(v, msg + chunk) && Rest(BlockLength(v), msg + chunk) == []
    {
      hide Lawful, Compress, Compressor, Blocks, Rest, Counts;
      AbsorbBlock(Compressor(v.machine.alg), BlockLength(v), v.iv, msg, chunk);
      CompressorCompresses(v.machine.alg, StateOf(state), data[pos..pos + BlockLength(v)]);
      Transform(v.machine, state, buffer, data, pos);
    }

    /** k bytes complete the partial block, which is hashed where it lies. */
    method Complete(data: array<bv8>, pos: nat, used: nat, k: nat)
      requires Valid() && data != buffer && (state as object) != data && pos + k <= data.Length
      requires used == |Rest(BlockLength(v), msg)| && used + k == BlockLength(v)
      modifies this`bitcount, this`counted, this`msg, state, buffer
      ensures Valid() && msg == old(msg) + data[pos..pos + k]
      ensures Rest(BlockLength(v), msg) == []
    {
      hide Lawful, Compress, Compressor, Blocks, Rest, Counts;
      ghost var chunk := data[pos..pos + k];
      CopyBytes(buffer, used, data, pos, k);
      Tally(k);
      assert buffer[0..BlockLength(v)] == Rest(BlockLength(v), msg) + chunk;
      HashAt(buffer, 0, chunk);
      msg := msg + chunk;
    }

    /** A whole block is hashed from the caller's memory. */
    method Direct(data: array<bv8>, pos: nat)
      requires Valid() && data != buffer && (state as object) != data && pos + BlockLength(v) <= data.Length
      requires Rest(BlockLength(v), msg) == []
      modifies this`bitcount, this`counted, this`msg, state, buffer
      ensures Valid() && msg == old(msg) + data[pos..pos + BlockLength(v)]
      ensures Rest(BlockLength(v), msg) == []
    {
      hide Lawful, Compress, Compressor, Blocks, Rest, Counts;
      ghost var block := data[pos..pos + BlockLength(v)];
      assert block == [] + block;
      HashAt(data, pos, block);
      Tally(BlockLength(v));
      msg := msg + block;
    }

    /** From a block boundary: whole blocks from the caller's memory, the rest kept. */
    method AbsorbFrom(data: array<bv8>, from: nat, len: nat)
      requires Valid() && data != buffer && (state as object) != data && from <= len <= data.Length
      requires Rest(BlockLength(v), msg) == []
      modifies this`bitcount, this`counted, this`msg, state, buffer
      ensures Valid() && msg == old(msg) + data[from..len]
    {
      hide Valid, Hashed, Supported, Rest;
      var pos := from;
      while len - pos >= BlockLength(v)
        invariant from <= pos <= len
        invariant Valid() && Rest(BlockLength(v), msg) == []
        invariant msg == old(msg) + data[from..pos]
      {
        Joined(old(msg), data, from, pos, pos + BlockLength(v));
        Direct(data, pos);
        pos := pos + BlockLength(v);
      }
      if len > pos {
        Joined(old(msg), data, from, pos, len);
        Keep(data, pos, 0, len - pos);
      }
    }

    method Update(data: array?<bv8>, len: nat)
      requires Valid() && len < TWO32
      requires data != null ==> data != buffer && (state as object) != data && len <= data.Length
      modifies this`bitcount, this`counted, this`msg, state, buffer
      ensures Valid()
      ensures msg == if data == null then old(msg) else old(msg) + data[..len]
    {
      hide Lawful, Compress, Compressor, Blocks, Rest, Counts;
      if len == 0 || data == null {
        return;
      }
      FillFromCount(v.wide, bitcount, msg);
      var usedspace := (bitcount.lo / 8) % BlockLength(v);
      if usedspace > 0 {
        var freespace := BlockLength(v) - usedspace;
        if len >= freespace {
          Joined(msg, data, 0, freespace, len);
          Complete(data, 0, usedspace, freespace);
          AbsorbFrom(data, freespace, len);
        } else {
          Keep(data, 0, usedspace, len);
        }
      } else {
        AbsorbFrom(data, 0, len);
      }
    }

    /** The final one bit and zeros, up to where the length goes; a block of its own is
        hashed first when the length no longer fits behind the message. */
    method PadBuffer(used: nat)
      requires Valid() && used == |Rest(BlockLength(v), msg)|
      modifies state, buffer
      ensures PadDone(Compressor(v.machine.alg), BlockLength(v), ShortBlock(v), v.iv, msg,
                      StateOf(state), buffer[..ShortBlock(v)])
    {
      hide Lawful, Compress, Compressor, Blocks, Rest, Counts;
      if used > 0 {
        buffer[used] := 0x80;
        assert buffer[..used + 1] == Rest(BlockLength(v), msg) + [0x80];
        if used + 1 <= ShortBlock(v) {
          ClearBytes(buffer, used + 1, ShortBlock(v) - used - 1);
          assert buffer[..ShortBlock(v)] == Rest(BlockLength(v), msg) + [0x80] + Zeros(ShortBlock(v) - 1 - used);
        } else {
          Spill(used);
        }
      } else {
        ClearBytes(buffer, 0, ShortBlock(v));
        buffer[0] := 0x80;
        assert buffer[..ShortBlock(v)] == [] + [0x80] + Zeros(ShortBlock(v) - 1);
      }
    }

    /** The block behind the one bit is zero-filled. */
    method FillBlock(used: nat)
      requires Shape() && used == |Rest(BlockLength(v), msg)|
      requires buffer[..used + 1] == Rest(BlockLength(v), msg) + [0x80]
      modifies buffer
      ensures buffer[..] == Rest(BlockLength(v), msg) + [0x80] + Zeros(BlockLength(v) - 1 - used)
    {
      hide Supported, Rest;
      if used + 1 < BlockLength(v) {
        ClearBytes(buffer, used + 1, BlockLength(v) - used - 1);
      }
    }

    /** No room for the length: the block is hashed and the next one starts empty. */
    method Spill(used: nat)
      requires Shape() && StateOf(state) == State(v, msg)
      requires ShortBlock(v) <= used == |Rest(BlockLength(v), msg)|
      requires buffer[..used + 1] == Rest(BlockLength(v), msg) + [0x80]
      modifies state, buffer
      ensures PadDone(Compressor(v.machine.alg), BlockLength(v), ShortBlock(v), v.iv, msg,
                      StateOf(state), buffer[..ShortBlock(v)])
    {
      hide Lawful, Compress, Compressor, Blocks, Rest, PadDone, StateOf, Zeros;
      PadSpilled(Compressor(v.machine.alg), BlockLength(v), ShortBlock(v), v.iv, msg);
      FillBlock(used);
      assert buffer[0..BlockLength(v)] == buffer[..];
      CompressorCompresses(v.machine.alg, StateOf(state), buffer[..]);
      Transform(v.machine, state, buffer, buffer, 0);
      ClearShort();
    }

    method ClearShort()
      requires Shape()
      modifies buffer
      ensures buffer[..ShortBlock(v)] == Zeros(ShortBlock(v))
    {
      hide Lawful;
      ClearBytes(buffer, 0, v.cleared);
    }

    /** The bit count, swapped to big-endian and stored at the end of the block. */
    method StoreLength()
      requires Shape() && Counts(v.wide, bitcount, counted)
      modifies this`bitcount, buffer
      ensures buffer[..] == old(buffer[..ShortBlock(v)]) + LengthField(v.wide, counted)
    {
      hide Lawful, Compress, Compressor, Blocks, Rest, Counts;
      var swapped := Count(ByteSwap64(bitcount.lo), ByteSwap64(bitcount.hi));
      FieldOfCount(v.wide, bitcount, counted);
      if v.wide {
        StoreBytes(buffer, ShortBlock(v), LittleEndian(swapped.hi, 8));
        StoreBytes(buffer, ShortBlock(v) + 8, LittleEndian(swapped.lo, 8));
      } else {
        StoreBytes(buffer, ShortBlock(v), LittleEndian(swapped.lo, 8));
      }
      bitcount := swapped;
    }

    /** Pads and hashes what is left. */
    method Last()
      requires Valid()
      modifies this`bitcount, state, buffer
      ensures StateOf(state) == State(v, Padded(BlockLength(v), msg, LengthField(v.wide, |msg|)))
    {
      hide Lawful, Compress, Compressor, Blocks, Rest, Counts;
      FillFromCount(v.wide, bitcount, msg);
      var usedspace := (bitcount.lo / 8) % BlockLength(v);
      PadBuffer(usedspace);
      LastBlock(Compressor(v.machine.alg), BlockLength(v), v.iv, msg, LengthField(v.wide, |msg|),
                StateOf(state), buffer[..ShortBlock(v)]);
      StoreLength();
      assert buffer[0..BlockLength(v)] == buffer[..];
      CompressorCompresses(v.machine.alg, StateOf(state), buffer[..]);
      Transform(v.machine, state, buffer, buffer, 0);
    }

    /** Writes the leading words of the state out in big-endian order. */
    method WriteDigest(digest: array<bv8>)
      requires Shape() && LawfulOutput(v.machine)
      requires digest != buffer && (state as object) != digest
      requires digest.Length >= v.machine.alg.bytes * v.digestWords
      modifies state, digest
      ensures digest[..v.machine.alg.bytes * v.digestWords]
           == WordBytes(v.machine.alg, HashWords(old(StateOf(state)))[..v.digestWords])
    {
      hide Lawful, LawfulOutput, WordBytes;
      var m := v.machine;
      ghost var ws := HashWords(StateOf(state));
      WordBytesStep(m.alg, [], ws[0]);
      assert ws[..0] == [];
      var at := 0;
      for j := 0 to v.digestWords
        invariant forall i :: j <= i < 8 ==> state[i] == ws[i]
        invariant at == m.alg.bytes * j <= digest.Length
        invariant digest[..at] == WordBytes(m.alg, ws[..j])
      {
        RoomForWord(m.alg.bytes, j, v.digestWords);
        OutputWord(m, ws[j]);
        state[j] := m.swap(state[j]);
        assert ws[..j + 1] == ws[..j] + [ws[j]];
        WordBytesStep(m.alg, ws[..j], ws[j]);
        StoreBytes(digest, at, m.store(state[j]));
        at := at + m.alg.bytes;
      }
    }

    /** memset of the whole context. */
    method Wipe()
      requires Shape()
      modifies this, state, buffer
      ensures forall i :: 0 <= i < 8 ==> state[i] == v.machine.load(Zeros(v.machine.alg.bytes))
      ensures forall i :: 0 <= i < buffer.Length ==> buffer[i] == 0
      ensures bitcount == Count(0, 0)
    {
      hide Lawful, Compress, Schedule;
      var zero := v.machine.load(Zeros(v.machine.alg.bytes));
      for i := 0 to 8
        invariant forall k :: 0 <= k < i ==> state[k] == zero
      {
        state[i] := zero;
      }
      ClearBytes(buffer, 0, BlockLength(v));
      bitcount := Count(0, 0);
    }

    /** The digest of everything absorbed since Init, however it was cut into updates. */
    method Final(digest: array?<bv8>)
      requires Valid() && LawfulOutput(v.machine)
      requires digest != null ==> digest != buffer && (state as object) != digest
      requires digest != null ==> digest.Length >= v.machine.alg.bytes * v.digestWords
      modifies this, state, buffer, if digest == null then {} else {digest}
      ensures digest != null ==> digest[..v.machine.alg.bytes * v.digestWords] == Digest(v, old(msg))
      ensures v.wipes ==> bitcount == Count(0, 0)
      ensures v.wipes ==> forall i :: 0 <= i < 8 ==> state[i] == v.machine.load(Zeros(v.machine.alg.bytes))
      ensures v.wipes ==> forall i :: 0 <= i < buffer.Length ==> buffer[i] == 0
    {
      hide Lawful, Compress, Schedule;
      if digest != null {
        Last();
        WriteDigest(digest);
      }
      if v.wipes {
        Wipe();
      }
    }
  }

  // ----- the three members of the family

  function SHA256(): (v: Variant<bv32>) {
    Variant(Machine256(), IV256, false, 56, 8, true)
  }

  function SHA512(): (v: Variant<bv64>) {
    Variant(Machine512(), IV512, true, 126, 8, true)
  }

  function SHA384(): (v: Variant<bv64>) {
    Variant(Machine512(), IV384, true, 126, 6, false)
  }

  lemma SHA256Supported()
    ensures Supported(SHA256()) && LawfulOutput(SHA256().machine)
  {
    Machine256IsLawful();
    Machine256OutputIsLawful();
  }

  lemma SHA512Supported()
    ensures Supported(SHA512()) && LawfulOutput(SHA512().machine)
  {
    Machine512IsLawful();
    Machine512OutputIsLawful();
  }

  lemma SHA384Supported()
    ensures Supported(SHA384()) && LawfulOutput(SHA384().machine)
  {
    Machine512IsLawful();
    Machine512OutputIsLawful();
  }

  /** A message hashed in any number of pieces of any length. */
  method HashChunks<W(!new, 0)>(v: Variant<W>, chunks: seq<seq<bv8>>) returns (digest: seq<bv8>)
    requires Supported(v) && LawfulOutput(v.machine)
    requires forall i :: 0 <= i < |chunks| ==> |chunks[i]| < TWO32
    ensures digest == Digest(v, Flatten(chunks))
  {
    hide Lawful, LawfulOutput, Rest, Blocks, Counts;
    var ctx := new Context(v);
    for i := 0 to |chunks|
      invariant ctx.Valid() && ctx.v == v && ctx.msg == Flatten(chunks[..i])
      invariant fresh(ctx) && fresh(ctx.state) && fresh(ctx.buffer)
    {
      var chunk := chunks[i];
      var data := new bv8[|chunk|](k requires 0 <= k < |chunk| => chunk[k]);
      assert data[..|chunk|] == chunk;
      assert chunks[..i + 1][..i] == chunks[..i];
      ctx.Update(data, |chunk|);
    }
    assert chunks[..|chunks|] == chunks;
    var out := new bv8[v.machine.alg.bytes * v.digestWords];
    ctx.Final(out);
    digest := out[..];
    assert out[..v.machine.alg.bytes * v.digestWords] == out[..];
  }
}
