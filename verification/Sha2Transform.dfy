/**
  SHA256_Transform and SHA512_Transform: the two are the same code over different
  words.  The schedule lives in the sixteen words of the context's own buffer and the
  block read may be that same buffer.
 */
module Sha2Transform {
  import opened Sha2Spec

  /** The machine side of a word: how the host loads and stores it, and the byte swap. */
  datatype Machine<!W> = Machine(
    alg: Algebra<W>,
    load: seq<bv8> -> W,            // host (little-endian) load
    store: W -> seq<bv8>,           // host (little-endian) store
    swap: W -> W)                   // os_htobe32 / os_be64toh on a little-endian host

  ghost predicate Commutative<W(!new)>(alg: Algebra<W>) {
    forall x, y :: alg.add(x, y) == alg.add(y, x)
  }

  ghost predicate Lawful<W(!new)>(m: Machine<W>) {
    && WellFormed(m.alg) && Commutative(m.alg)
    && (forall w :: |m.store(w)| == m.alg.bytes)
    && (forall w :: m.load(m.store(w)) == w)
    && (forall s :: |s| == m.alg.bytes ==> m.swap(m.load(s)) == m.alg.bigEndian(s))
  }

  /** Storing a swapped word leaves it big-endian in memory. */
  ghost predicate LawfulOutput<W(!new)>(m: Machine<W>) {
    forall w :: m.store(m.swap(w)) == m.alg.toBigEndian(w)
  }

  /** Word j of a buffer of words. */
  function Slot(bytes: nat, buffer: seq<bv8>, j: nat): (s: seq<bv8>)
    requires |buffer| == 16 * bytes && j < 16
    ensures |s| == bytes
  {
    SlotBounds(bytes, j);
    buffer[j * bytes..(j + 1) * bytes]
  }

  lemma SlotBounds(bytes: nat, j: nat)
    requires j < 16
    ensures 0 <= j * bytes <= (j + 1) * bytes <= 16 * bytes
    ensures (j + 1) * bytes - j * bytes == bytes
  {}

  function LoadWord<W>(m: Machine<W>, buffer: seq<bv8>, j: nat): W
    requires |buffer| == 16 * m.alg.bytes && j < 16
  {
    m.load(Slot(m.alg.bytes, buffer, j))
  }

  /** Two different words of a buffer do not overlap. */
  lemma SlotsDisjoint(bytes: nat, i: nat, j: nat)
    requires i < j < 16
    ensures (i + 1) * bytes <= j * bytes
  {}

  /** `W[j] = w`: word j becomes w and every other word keeps its bytes. */
  method StoreWord<W(!new)>(m: Machine<W>, buffer: array<bv8>, j: nat, w: W)
    requires Lawful(m) && buffer.Length == BlockBytes(m.alg) && j < 16
    modifies buffer
    ensures LoadWord(m, buffer[..], j) == w
    ensures forall i: nat :: i < 16 && i != j ==>
              Slot(m.alg.bytes, buffer[..], i) == Slot(m.alg.bytes, old(buffer[..]), i)
  {
    hide Commutative;
    var s := m.store(w);
    var n := m.alg.bytes;
    SlotBounds(n, j);
    ghost var was := buffer[..];
    for i := 0 to n
      invariant forall k :: 0 <= k < i ==> buffer[j * n + k] == s[k]
      invariant forall k :: 0 <= k < buffer.Length && !(j * n <= k < j * n + i) ==> buffer[k] == was[k]
    {
      buffer[j * n + i] := s[i];
    }
    assert Slot(n, buffer[..], j) == s;
    forall i: nat | i < 16 && i != j
      ensures Slot(n, buffer[..], i) == Slot(n, was, i)
    {
      SlotBounds(n, i);
      if i < j { SlotsDisjoint(n, i, j); } else { SlotsDisjoint(n, j, i); }
    }
  }

  /** The state array read as H0..H7. */
  ghost function StateOf<W>(state: array<W>): Regs<W>
    requires state.Length == 8
    reads state
  {
    Regs(state[0], state[1], state[2], state[3], state[4], state[5], state[6], state[7])
  }

  method SetState<W>(state: array<W>, h: Regs<W>)
    requires state.Length == 8
    modifies state
    ensures StateOf(state) == h
  {
    state[0], state[1], state[2], state[3] := h.a, h.b, h.c, h.d;
    state[4], state[5], state[6], state[7] := h.e, h.f, h.g, h.h;
  }

  /** In round j >= 16 the window holds W_{j-16} .. W_{j-1}, word t in slot t % 16. */
  ghost predicate Window<W>(m: Machine<W>, buffer: seq<bv8>, block: seq<bv8>, j: nat)
    requires |buffer| == |block| == BlockBytes(m.alg) && j >= 16
  {
    forall t: nat :: j - 16 <= t < j ==> LoadWord(m, buffer, t % 16) == Schedule(m.alg, block, t)
  }

  /** The slots that round j reads, as the code indexes them. */
  lemma WindowSlots(j: nat)
    requires j >= 16
    ensures (j + 1) % 16 == (j - 15) % 16 && (j + 14) % 16 == (j - 2) % 16
    ensures (j + 9) % 16 == (j - 7) % 16 && (j - 16) % 16 == j % 16
  {}

  /** Within one window no other word shares the slot. */
  lemma OwnSlot(j: nat, t: nat)
    requires j - 16 < t < j
    ensures t % 16 != j % 16
  {}

  lemma AddCommutes<W(!new)>(alg: Algebra<W>, x: W, y: W)
    requires Commutative(alg)
    ensures alg.add(x, y) == alg.add(y, x)
  {}

  /** One expansion step: slot j % 16 goes from W_{j-16} to W_j and the window moves on. */
  method Expand<W(!new)>(m: Machine<W>, buffer: array<bv8>, j: nat, ghost block: seq<bv8>) returns (w: W)
    requires Lawful(m) && j >= 16
    requires buffer.Length == |block| == BlockBytes(m.alg)
    requires Window(m, buffer[..], block, j)
    modifies buffer
    ensures w == Schedule(m.alg, block, j)
    ensures Window(m, buffer[..], block, j + 1)
  {
    hide Commutative;
    WindowSlots(j);
    var s0 := m.alg.sigma0(LoadWord(m, buffer[..], (j + 1) % 16));
    var s1 := m.alg.sigma1(LoadWord(m, buffer[..], (j + 14) % 16));
    var sum := m.alg.add(m.alg.add(s1, LoadWord(m, buffer[..], (j + 9) % 16)), s0);
    w := m.alg.add(LoadWord(m, buffer[..], j % 16), sum);
    AddCommutes(m.alg, LoadWord(m, buffer[..], j % 16), sum);
    assert w == Schedule(m.alg, block, j) by {
      assert LoadWord(m, buffer[..], (j - 16) % 16) == Schedule(m.alg, block, j - 16);
    }
    ghost var was := buffer[..];
    StoreWord(m, buffer, j % 16, w);
    WindowMoves(m, was, buffer[..], block, j);
  }

  /** With W_j in its slot and the other slots kept, the window has moved on. */
  lemma WindowMoves<W>(m: Machine<W>, was: seq<bv8>, now: seq<bv8>, block: seq<bv8>, j: nat)
    requires |was| == |now| == |block| == BlockBytes(m.alg) && j >= 16
    requires Window(m, was, block, j) && LoadWord(m, now, j % 16) == Schedule(m.alg, block, j)
    requires forall i: nat :: i < 16 && i != j % 16 ==> Slot(m.alg.bytes, now, i) == Slot(m.alg.bytes, was, i)
    ensures Window(m, now, block, j + 1)
  {
    hide Schedule, Slot;
    forall t: nat | j + 1 - 16 <= t < j + 1
      ensures LoadWord(m, now, t % 16) == Schedule(m.alg, block, t)
    {
      if t < j {
        OwnSlot(j, t);
        assert LoadWord(m, was, t % 16) == Schedule(m.alg, block, t);
      }
    }
  }

  /** The source words from j on are still those of the block: a block that lies in the
      buffer itself is overwritten only behind the reading position. */
  ghost predicate Unread<W>(m: Machine<W>, source: seq<bv8>, block: seq<bv8>, j: nat)
    requires |source| == |block| == BlockBytes(m.alg)
  {
    forall i: nat :: j <= i < 16 ==> Slot(m.alg.bytes, source, i) == Slot(m.alg.bytes, block, i)
  }

  /** The first j words of the buffer are W_0 .. W_{j-1}. */
  ghost predicate Fetched<W>(m: Machine<W>, buffer: seq<bv8>, block: seq<bv8>, j: nat)
    requires |buffer| == |block| == BlockBytes(m.alg)
  {
    forall t: nat :: t < j && t < 16 ==> LoadWord(m, buffer, t) == Schedule(m.alg, block, t)
  }

  /** `W[j] = os_htobe(*data++)`. */
  method Fetch<W(!new)>(m: Machine<W>, buffer: array<bv8>, data: array<bv8>, off: nat, j: nat,
                        ghost block: seq<bv8>) returns (w: W)
    requires Lawful(m) && j < 16
    requires buffer.Length == |block| == BlockBytes(m.alg)
    requires off + BlockBytes(m.alg) <= data.Length && (data == buffer ==> off == 0)
    requires Unread(m, data[off..off + BlockBytes(m.alg)], block, j)
    requires Fetched(m, buffer[..], block, j)
    modifies buffer
    ensures w == Schedule(m.alg, block, j)
    ensures Unread(m, data[off..off + BlockBytes(m.alg)], block, j + 1)
    ensures Fetched(m, buffer[..], block, j + 1)
  {
    hide Commutative;
    ghost var was := buffer[..];
    w := m.swap(LoadWord(m, data[off..off + BlockBytes(m.alg)], j));
    StoreWord(m, buffer, j, w);
    if data == buffer {
      assert data[off..off + BlockBytes(m.alg)] == buffer[..];
      assert old(data[off..off + BlockBytes(m.alg)]) == was;
    } else {
      assert data[off..off + BlockBytes(m.alg)] == old(data[off..off + BlockBytes(m.alg)]);
    }
    forall t: nat | t < j + 1 && t < 16
      ensures LoadWord(m, buffer[..], t) == Schedule(m.alg, block, t)
    {
      if t < j {
        assert LoadWord(m, was, t) == Schedule(m.alg, block, t);
      }
    }
  }

  /** At the start nothing is fetched and all is unread. */
  lemma FirstWords<W>(m: Machine<W>, buffer: seq<bv8>, block: seq<bv8>)
    requires |buffer| == |block| == BlockBytes(m.alg)
    ensures Unread(m, block, block, 0) && Fetched(m, buffer, block, 0)
  {}

  /** Sixteen fetched words are the first window. */
  lemma FullWindow<W>(m: Machine<W>, buffer: seq<bv8>, block: seq<bv8>)
    requires |buffer| == |block| == BlockBytes(m.alg)
    requires Fetched(m, buffer, block, 16)
    ensures Window(m, buffer, block, 16)
  {
    assert forall t: nat :: t < 16 ==> t % 16 == t;
  }

  lemma NoRounds<W>(alg: Algebra<W>, h: Regs<W>, block: seq<bv8>)
    requires |block| == BlockBytes(alg)
    ensures Rounds(alg, h, block, 0) == h
  {}

  lemma OneRound<W>(alg: Algebra<W>, h: Regs<W>, block: seq<bv8>, j: nat)
    requires |block| == BlockBytes(alg) && j < alg.rounds
    ensures Rounds(alg, h, block, j + 1) == Round(alg, Rounds(alg, h, block, j), alg.k(j), Schedule(alg, block, j))
  {
    hide Round, Schedule;
  }

  /** T1, T2 and the eight assignments. */
  method MixIn<W>(alg: Algebra<W>, r: Regs<W>, k: W, w: W) returns (r': Regs<W>)
    ensures r' == Round(alg, r, k, w)
  {
    hide T1, T2;
    var Regs(a, b, c, d, e, f, g, h) := r;
    var t1, t2 := T1(alg, r, k, w), T2(alg, r);
    h, g, f, e := g, f, e, alg.add(d, t1);
    d, c, b, a := c, b, a, alg.add(t1, t2);
    r' := Regs(a, b, c, d, e, f, g, h);
  }

  /** The first sixteen rounds, which take the block itself. */
  method FirstRounds<W(!new)>(m: Machine<W>, start: Regs<W>, buffer: array<bv8>, data: array<bv8>, off: nat)
    returns (r: Regs<W>)
    requires Lawful(m)
    requires buffer.Length == BlockBytes(m.alg)
    requires off + BlockBytes(m.alg) <= data.Length && (data == buffer ==> off == 0)
    modifies buffer
    ensures 16 <= m.alg.rounds && r == Rounds(m.alg, start, old(data[off..off + BlockBytes(m.alg)]), 16)
    ensures Window(m, buffer[..], old(data[off..off + BlockBytes(m.alg)]), 16)
  {
    assert WellFormed(m.alg);
    ghost var block := data[off..off + BlockBytes(m.alg)];
    FirstWords(m, buffer[..], block);
    hide Lawful, Schedule, Unread, Fetched, Window, Rounds, Round, BlockBytes;
    NoRounds(m.alg, start, block);
    r := start;
    var j := 0;
    while j < 16
      invariant 0 <= j <= 16
      invariant Unread(m, data[off..off + BlockBytes(m.alg)], block, j)
      invariant Fetched(m, buffer[..], block, j)
      invariant r == Rounds(m.alg, start, block, j)
    {
      var w := Fetch(m, buffer, data, off, j, block);
      OneRound(m.alg, start, block, j);
      r := MixIn(m.alg, r, m.alg.k(j), w);
      j := j + 1;
    }
    FullWindow(m, buffer[..], block);
  }

  /** The rounds that take an expanded word each. */
  method LaterRounds<W(!new)>(m: Machine<W>, first: Regs<W>, buffer: array<bv8>,
                              ghost start: Regs<W>, ghost block: seq<bv8>)
    returns (r: Regs<W>)
    requires Lawful(m) && buffer.Length == |block| == BlockBytes(m.alg) && 16 <= m.alg.rounds
    requires first == Rounds(m.alg, start, block, 16) && Window(m, buffer[..], block, 16)
    modifies buffer
    ensures r == Rounds(m.alg, start, block, m.alg.rounds)
  {
    hide Lawful, Schedule, Window, Rounds, Round, BlockBytes;
    r := first;
    var j := 16;
    while j < m.alg.rounds
      invariant 16 <= j <= m.alg.rounds
      invariant Window(m, buffer[..], block, j)
      invariant r == Rounds(m.alg, start, block, j)
    {
      var w := Expand(m, buffer, j, block);
      OneRound(m.alg, start, block, j);
      r := MixIn(m.alg, r, m.alg.k(j), w);
      j := j + 1;
    }
  }

  /** The 64 or 80 rounds, from the state on entry. */
  method Mix<W(!new)>(m: Machine<W>, start: Regs<W>, buffer: array<bv8>, data: array<bv8>, off: nat)
    returns (r: Regs<W>)
    requires Lawful(m)
    requires buffer.Length == BlockBytes(m.alg)
    requires off + BlockBytes(m.alg) <= data.Length && (data == buffer ==> off == 0)
    modifies buffer
    ensures r == Rounds(m.alg, start, old(data[off..off + BlockBytes(m.alg)]), m.alg.rounds)
  {
    hide Lawful, Schedule, Window, Rounds, BlockBytes;
    ghost var block := data[off..off + BlockBytes(m.alg)];
    r := FirstRounds(m, start, buffer, data, off);
    r := LaterRounds(m, r, buffer, start, block);
  }

  /** The block, hashed into the state; also when the block lies in the buffer itself. */
  method Transform<W(!new)>(m: Machine<W>, state: array<W>, buffer: array<bv8>, data: array<bv8>, off: nat)
    requires Lawful(m)
    requires state.Length == 8 && buffer.Length == BlockBytes(m.alg)
    requires state as object != buffer && state as object != data
    requires off + BlockBytes(m.alg) <= data.Length && (data == buffer ==> off == 0)
    modifies state, buffer
    ensures StateOf(state) == Compress(m.alg, old(StateOf(state)), old(data[off..off + BlockBytes(m.alg)]))
  {
    var h := Regs(state[0], state[1], state[2], state[3], state[4], state[5], state[6], state[7]);
    var r := Mix(m, h, buffer, data, off);
    SetState(state, Regs(m.alg.add(h.a, r.a), m.alg.add(h.b, r.b), m.alg.add(h.c, r.c), m.alg.add(h.d, r.d),
                         m.alg.add(h.e, r.e), m.alg.add(h.f, r.f), m.alg.add(h.g, r.g), m.alg.add(h.h, r.h)));
  }
}
