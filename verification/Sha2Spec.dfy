/**
  The compression function of SHA-2 as FIPS 180-4 writes it, over any word algebra.
  Sections 6.2.2 (SHA-256) and 6.4.2 (SHA-512) are the same text over 32-bit and
  64-bit words, so the schedule and the rounds are defined once.
 */
module Sha2Spec {
  /** What a member of the family fixes: word arithmetic, the six logical functions,
      the constants K, and how a big-endian word is read from memory. */
  datatype Algebra<!W> = Algebra(
    bytes: nat,                     // bytes in a word
    add: (W, W) -> W,               // addition modulo the word size
    ch: (W, W, W) -> W,
    maj: (W, W, W) -> W,
    bigSigma0: W -> W,
    bigSigma1: W -> W,
    sigma0: W -> W,
    sigma1: W -> W,
    rounds: nat,
    k: nat -> W,                    // the constant of each round
    bigEndian: seq<bv8> -> W,       // the word that a big-endian byte string denotes
    toBigEndian: W -> seq<bv8>)     // and the bytes of a word, most significant first

  predicate WellFormed<W>(alg: Algebra<W>) {
    alg.bytes > 0 && alg.rounds >= 16
  }

  /** The working variables a..h, and the intermediate hash value H0..H7. */
  datatype Regs<W> = Regs(a: W, b: W, c: W, d: W, e: W, f: W, g: W, h: W)

  function BlockBytes<W>(alg: Algebra<W>): nat {
    16 * alg.bytes
  }

  /** Word t of a block. */
  function BlockWord<W>(alg: Algebra<W>, block: seq<bv8>, t: nat): W
    requires |block| == BlockBytes(alg) && t < 16
  {
    alg.bigEndian(block[t * alg.bytes..(t + 1) * alg.bytes])
  }

  /** W_t of the message schedule, fully expanded. */
  function Schedule<W>(alg: Algebra<W>, block: seq<bv8>, t: nat): W
    requires |block| == BlockBytes(alg)
  {
    if t < 16 then BlockWord(alg, block, t)
    else
      alg.add(
        alg.add(alg.add(alg.sigma1(Schedule(alg, block, t - 2)), Schedule(alg, block, t - 7)),
                alg.sigma0(Schedule(alg, block, t - 15))),
        Schedule(alg, block, t - 16))
  }

  function T1<W>(alg: Algebra<W>, r: Regs<W>, k: W, w: W): W {
    alg.add(alg.add(alg.add(alg.add(r.h, alg.bigSigma1(r.e)), alg.ch(r.e, r.f, r.g)), k), w)
  }

  function T2<W>(alg: Algebra<W>, r: Regs<W>): W {
    alg.add(alg.bigSigma0(r.a), alg.maj(r.a, r.b, r.c))
  }

  function Round<W>(alg: Algebra<W>, r: Regs<W>, k: W, w: W): Regs<W> {
    Regs(alg.add(T1(alg, r, k, w), T2(alg, r)), r.a, r.b, r.c,
         alg.add(r.d, T1(alg, r, k, w)), r.e, r.f, r.g)
  }

  /** The working variables after the first t rounds. */
  function Rounds<W>(alg: Algebra<W>, h: Regs<W>, block: seq<bv8>, t: nat): Regs<W>
    requires |block| == BlockBytes(alg) && t <= alg.rounds
  {
    if t == 0 then h
    else Round(alg, Rounds(alg, h, block, t - 1), alg.k(t - 1), Schedule(alg, block, t - 1))
  }

  function AddRegs<W>(alg: Algebra<W>, x: Regs<W>, y: Regs<W>): Regs<W> {
    Regs(alg.add(x.a, y.a), alg.add(x.b, y.b), alg.add(x.c, y.c), alg.add(x.d, y.d),
         alg.add(x.e, y.e), alg.add(x.f, y.f), alg.add(x.g, y.g), alg.add(x.h, y.h))
  }

  /** The next intermediate hash value. */
  function Compress<W>(alg: Algebra<W>, h: Regs<W>, block: seq<bv8>): Regs<W>
    requires |block| == BlockBytes(alg)
  {
    AddRegs(alg, h, Rounds(alg, h, block, alg.rounds))
  }

  /** The compression function as a value, for folding over blocks. */
  function Compressor<W>(alg: Algebra<W>): (Regs<W>, seq<bv8>) -> Regs<W> {
    (h, block) => if |block| == BlockBytes(alg) then Compress(alg, h, block) else h
  }

  lemma CompressorCompresses<W>(alg: Algebra<W>, h: Regs<W>, block: seq<bv8>)
    requires |block| == BlockBytes(alg)
    ensures Compressor(alg)(h, block) == Compress(alg, h, block)
  {}

  function HashWords<W>(h: Regs<W>): (ws: seq<W>)
    ensures |ws| == 8
  {
    [h.a, h.b, h.c, h.d, h.e, h.f, h.g, h.h]
  }

  /** Words written out one after the other, most significant byte first. */
  function WordBytes<W>(alg: Algebra<W>, ws: seq<W>): seq<bv8> {
    if ws == [] then [] else WordBytes(alg, ws[..|ws| - 1]) + alg.toBigEndian(ws[|ws| - 1])
  }
}
