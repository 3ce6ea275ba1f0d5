/**
  The shift register behind every CRC, over bits: polynomials modulo a generator of any
  degree n, as bit strings with the highest power first.  The generator is x^n + p.
 */
module CrcRegister {

  function Zeros(n: nat): (s: seq<bool>)
    ensures |s| == n
  {
    seq(n, _ => false)
  }

  /** The single power x^(n-1-k). */
  function Unit(n: nat, k: nat): (s: seq<bool>)
    ensures |s| == n
  {
    seq(n, i => i == k)
  }

  function Xor(a: seq<bool>, b: seq<bool>): (s: seq<bool>)
    requires |a| == |b|
    ensures |s| == |a|
    ensures forall i :: 0 <= i < |s| ==> s[i] == (a[i] != b[i])
  {
    seq(|a|, i requires 0 <= i < |a| => a[i] != b[i])
  }

  function Complement(a: seq<bool>): (s: seq<bool>)
    ensures |s| == |a|
  {
    seq(|a|, i requires 0 <= i < |a| => !a[i])
  }

  /** One clock: multiply by x and reduce. */
  function Shift(r: seq<bool>, p: seq<bool>): (s: seq<bool>)
    requires |r| == |p|
    ensures |s| == |r|
  {
    seq(|r|, i requires 0 <= i < |r| => (i + 1 < |r| && r[i + 1]) != (r[0] && p[i]))
  }

  function ShiftBy(r: seq<bool>, p: seq<bool>, n: nat): (s: seq<bool>)
    requires |r| == |p|
    ensures |s| == |r|
    decreases n
  {
    if n == 0 then r else ShiftBy(Shift(r, p), p, n - 1)
  }

  /** A message bit enters at the high end: the direct form. */
  function Feed(r: seq<bool>, p: seq<bool>, bit: bool): (s: seq<bool>)
    requires |r| == |p| > 0
    ensures |s| == |r|
  {
    Shift(r[0 := r[0] != bit], p)
  }

  function FeedBits(r: seq<bool>, p: seq<bool>, bits: seq<bool>): (s: seq<bool>)
    requires |r| == |p| > 0
    ensures |s| == |r|
    decreases |bits|
  {
    if bits == [] then r else FeedBits(Feed(r, p, bits[0]), p, bits[1..])
  }

  /** A message bit enters at the low end: one step of long division. */
  function Divide(r: seq<bool>, p: seq<bool>, bit: bool): (s: seq<bool>)
    requires |r| == |p| > 0
    ensures |s| == |r|
  {
    var s := Shift(r, p);
    s[|s| - 1 := s[|s| - 1] != bit]
  }

  function DivideBits(r: seq<bool>, p: seq<bool>, bits: seq<bool>): (s: seq<bool>)
    requires |r| == |p| > 0
    ensures |s| == |r|
    decreases |bits|
  {
    if bits == [] then r else DivideBits(Divide(r, p, bits[0]), p, bits[1..])
  }

  /** The remainder of the message, times x^n, divided by the generator. */
  function Remainder(seed: seq<bool>, p: seq<bool>, bits: seq<bool>): (s: seq<bool>)
    requires |seed| == |p| > 0
    ensures |s| == |seed|
  {
    DivideBits(seed, p, bits + Zeros(|p|))
  }

  // ----- splitting

  lemma {:induction false} FeedBitsAppend(r: seq<bool>, p: seq<bool>, a: seq<bool>, b: seq<bool>)
    requires |r| == |p| > 0
    ensures FeedBits(r, p, a + b) == FeedBits(FeedBits(r, p, a), p, b)
    decreases |a|
  {
    if a == [] {
      assert a + b == b;
    } else {
      assert (a + b)[1..] == a[1..] + b;
      FeedBitsAppend(Feed(r, p, a[0]), p, a[1..], b);
    }
  }

  lemma {:induction false} DivideBitsAppend(r: seq<bool>, p: seq<bool>, a: seq<bool>, b: seq<bool>)
    requires |r| == |p| > 0
    ensures DivideBits(r, p, a + b) == DivideBits(DivideBits(r, p, a), p, b)
    decreases |a|
  {
    if a == [] {
      assert a + b == b;
    } else {
      assert (a + b)[1..] == a[1..] + b;
      DivideBitsAppend(Divide(r, p, a[0]), p, a[1..], b);
    }
  }

  lemma {:induction false} ShiftByAdds(r: seq<bool>, p: seq<bool>, m: nat, n: nat)
    requires |r| == |p|
    ensures ShiftBy(ShiftBy(r, p, m), p, n) == ShiftBy(r, p, m + n)
    decreases m
  {
    if m > 0 {
      ShiftByAdds(Shift(r, p), p, m - 1, n);
    }
  }

  lemma ShiftOnce(r: seq<bool>, p: seq<bool>)
    requires |r| == |p|
    ensures ShiftBy(r, p, 1) == Shift(r, p)
  {}

  // ----- linearity

  lemma ShiftIsLinear(a: seq<bool>, b: seq<bool>, p: seq<bool>)
    requires |a| == |b| == |p|
    ensures Shift(Xor(a, b), p) == Xor(Shift(a, p), Shift(b, p))
  {}

  lemma {:induction false} ShiftByIsLinear(a: seq<bool>, b: seq<bool>, p: seq<bool>, n: nat)
    requires |a| == |b| == |p|
    ensures ShiftBy(Xor(a, b), p, n) == Xor(ShiftBy(a, p, n), ShiftBy(b, p, n))
    decreases n
  {
    if n > 0 {
      ShiftIsLinear(a, b, p);
      ShiftByIsLinear(Shift(a, p), Shift(b, p), p, n - 1);
    }
  }

  lemma FeedIsLinear(r: seq<bool>, s: seq<bool>, p: seq<bool>, x: bool, y: bool)
    requires |r| == |s| == |p| > 0
    ensures Feed(Xor(r, s), p, x != y) == Xor(Feed(r, p, x), Feed(s, p, y))
  {
    ShiftIsLinear(r[0 := r[0] != x], s[0 := s[0] != y], p);
    assert Xor(r, s)[0 := Xor(r, s)[0] != (x != y)] == Xor(r[0 := r[0] != x], s[0 := s[0] != y]);
  }

  /** The register is linear in its seed and its message together. */
  lemma {:induction false} FeedBitsIsLinear(r: seq<bool>, s: seq<bool>, p: seq<bool>, x: seq<bool>, y: seq<bool>)
    requires |r| == |s| == |p| > 0 && |x| == |y|
    ensures FeedBits(Xor(r, s), p, Xor(x, y)) == Xor(FeedBits(r, p, x), FeedBits(s, p, y))
    decreases |x|
  {
    if x != [] {
      FeedIsLinear(r, s, p, x[0], y[0]);
      assert Xor(x, y)[1..] == Xor(x[1..], y[1..]);
      FeedBitsIsLinear(Feed(r, p, x[0]), Feed(s, p, y[0]), p, x[1..], y[1..]);
    }
  }

  lemma {:induction false} ShiftByOfZero(p: seq<bool>, n: nat)
    ensures ShiftBy(Zeros(|p|), p, n) == Zeros(|p|)
    decreases n
  {
    if n > 0 {
      assert Shift(Zeros(|p|), p) == Zeros(|p|);
      ShiftByOfZero(p, n - 1);
    }
  }

  // ----- up to n bits at once

  function Pad(w: seq<bool>, n: nat): (s: seq<bool>)
    requires |w| <= n
    ensures |s| == n
  {
    w + Zeros(n - |w|)
  }

  /** Up to n message bits may be added to the register first and clocked through after:
      what the byte-wise algorithms do. */
  lemma {:induction false} FeedWord(r: seq<bool>, p: seq<bool>, w: seq<bool>)
    requires |r| == |p| > 0 && |w| <= |p|
    ensures FeedBits(r, p, w) == ShiftBy(Xor(r, Pad(w, |p|)), p, |w|)
    decreases |w|
  {
    if w == [] {
      assert Xor(r, Pad(w, |p|)) == r;
    } else {
      assert Xor(Feed(r, p, w[0]), Pad(w[1..], |p|)) == Shift(Xor(r, Pad(w, |p|)), p);
      FeedWord(Feed(r, p, w[0]), p, w[1..]);
    }
  }

  /** Feeding the register its own contents clears it. */
  lemma FeedSelf(r: seq<bool>, p: seq<bool>)
    requires |r| == |p| > 0
    ensures FeedBits(r, p, r) == Zeros(|p|)
  {
    FeedWord(r, p, r);
    assert Xor(r, Pad(r, |p|)) == Zeros(|p|);
    ShiftByOfZero(p, |p|);
  }

  /** Feeding it the complement leaves a constant, whatever it held. */
  lemma FeedComplement(r: seq<bool>, p: seq<bool>)
    requires |r| == |p| > 0
    ensures FeedBits(r, p, Complement(r)) == ShiftBy(Complement(Zeros(|p|)), p, |p|)
  {
    FeedWord(r, p, Complement(r));
    assert Xor(r, Pad(Complement(r), |p|)) == Complement(Zeros(|p|));
  }

  /** Bits that have not reached the top are only moved. */
  lemma {:induction false} ShiftByMoves(k: nat, w: seq<bool>, p: seq<bool>)
    requires k + |w| == |p|
    ensures ShiftBy(Zeros(k) + w, p, k) == w + Zeros(k)
    decreases k
  {
    if k == 0 {
      assert Zeros(k) + w == w + Zeros(k);
    } else {
      var v := Zeros(k) + w;
      assert Shift(v, p) == Zeros(k - 1) + (w + [false]);
      ShiftByMoves(k - 1, w + [false], p);
      assert w + [false] + Zeros(k - 1) == w + Zeros(k);
    }
  }

  // ----- long division and the direct form

  lemma UnitEnds(k: nat)
    ensures Unit(k + 1, k) == Zeros(k) + [true] && Unit(k + 1, 0) == [true] + Zeros(k)
  {}

  /** x^0 clocked n times reaches the top and is reduced once. */
  lemma OneReachesTheTop(p: seq<bool>, k: nat)
    requires |p| == k + 1
    ensures ShiftBy(Unit(k + 1, k), p, k + 1) == Shift(Unit(k + 1, 0), p)
  {
    hide Shift, ShiftBy, Unit;
    UnitEnds(k);
    ShiftByMoves(k, [true], p);
    ShiftByAdds(Unit(k + 1, k), p, k, 1);
    ShiftOnce(Unit(k + 1, 0), p);
  }

  lemma OneStepAhead(r: seq<bool>, p: seq<bool>, bit: bool)
    requires |r| == |p| > 0
    ensures Feed(ShiftBy(r, p, |p|), p, bit) == ShiftBy(Divide(r, p, bit), p, |p|)
  {
    hide Shift, ShiftBy;
    var n := |p|;
    var d := ShiftBy(r, p, n);
    ShiftByAdds(r, p, n, 1);
    ShiftOnce(d, p);
    ShiftByAdds(r, p, 1, n);
    ShiftOnce(r, p);
    if bit {
      assert d[0 := d[0] != bit] == Xor(d, Unit(n, 0));
      ShiftIsLinear(d, Unit(n, 0), p);
      assert Divide(r, p, bit) == Xor(Shift(r, p), Unit(n, n - 1));
      ShiftByIsLinear(Shift(r, p), Unit(n, n - 1), p, n);
      OneReachesTheTop(p, n - 1);
    } else {
      assert d[0 := d[0] != bit] == d;
      assert Divide(r, p, bit) == Shift(r, p);
    }
  }

  /** The direct register is always the dividing one, n clocks ahead. */
  lemma {:induction false} DirectIsAhead(r: seq<bool>, p: seq<bool>, bits: seq<bool>)
    requires |r| == |p| > 0
    ensures FeedBits(ShiftBy(r, p, |p|), p, bits) == ShiftBy(DivideBits(r, p, bits), p, |p|)
    decreases |bits|
  {
    if bits != [] {
      OneStepAhead(r, p, bits[0]);
      DirectIsAhead(Divide(r, p, bits[0]), p, bits[1..]);
    }
  }

  lemma {:induction false} DivideZeros(r: seq<bool>, p: seq<bool>, n: nat)
    requires |r| == |p| > 0
    ensures DivideBits(r, p, Zeros(n)) == ShiftBy(r, p, n)
    decreases n
  {
    if n > 0 {
      assert Zeros(n)[1..] == Zeros(n - 1);
      assert Divide(r, p, false) == Shift(r, p);
      DivideZeros(Shift(r, p), p, n - 1);
    }
  }

  /** Division of the augmented message from a seed is the direct register started from
      that seed n clocks on. */
  lemma RemainderIsDirect(seed: seq<bool>, p: seq<bool>, bits: seq<bool>)
    requires |seed| == |p| > 0
    ensures Remainder(seed, p, bits) == FeedBits(ShiftBy(seed, p, |p|), p, bits)
  {
    DivideBitsAppend(seed, p, bits, Zeros(|p|));
    DivideZeros(DivideBits(seed, p, bits), p, |p|);
    DirectIsAhead(seed, p, bits);
  }

  // ----- error detection

  /** With an odd generator no clock loses information. */
  lemma ShiftIsInjective(a: seq<bool>, b: seq<bool>, p: seq<bool>)
    requires |a| == |b| == |p| > 0 && p[|p| - 1]
    requires Shift(a, p) == Shift(b, p)
    ensures a == b
  {
    var n := |p|;
    assert Shift(a, p)[n - 1] == a[0] && Shift(b, p)[n - 1] == b[0];
    forall i | 0 < i < n
      ensures a[i] == b[i]
    {
      assert Shift(a, p)[i - 1] == (a[i] != (a[0] && p[i - 1]));
      assert Shift(b, p)[i - 1] == (b[i] != (b[0] && p[i - 1]));
    }
  }

  lemma {:induction false} ShiftByIsInjective(a: seq<bool>, b: seq<bool>, p: seq<bool>, n: nat)
    requires |a| == |b| == |p| > 0 && p[|p| - 1]
    requires ShiftBy(a, p, n) == ShiftBy(b, p, n)
    ensures a == b
    decreases n
  {
    if n > 0 {
      ShiftByIsInjective(Shift(a, p), Shift(b, p), p, n - 1);
      ShiftIsInjective(a, b, p);
    }
  }

  lemma {:induction false} FeedBitsIsInjective(a: seq<bool>, b: seq<bool>, p: seq<bool>, bits: seq<bool>)
    requires |a| == |b| == |p| > 0 && p[|p| - 1]
    requires FeedBits(a, p, bits) == FeedBits(b, p, bits)
    ensures a == b
    decreases |bits|
  {
    if bits != [] {
      FeedBitsIsInjective(Feed(a, p, bits[0]), Feed(b, p, bits[0]), p, bits[1..]);
      var a', b' := a[0 := a[0] != bits[0]], b[0 := b[0] != bits[0]];
      ShiftIsInjective(a', b', p);
      forall i | 0 <= i < |a|
        ensures a[i] == b[i]
      {
        assert a'[i] == b'[i];
      }
    }
  }

  /** Equal registers after windows of at most n bits, in the same surroundings, mean
      equal windows. */
  lemma SameWindow(r: seq<bool>, p: seq<bool>, v: seq<bool>, w: seq<bool>, post: seq<bool>)
    requires |r| == |p| > 0 && p[|p| - 1]
    requires |v| == |w| <= |p|
    requires FeedBits(r, p, v + post) == FeedBits(r, p, w + post)
    ensures v == w
  {
    hide FeedBits, ShiftBy, Shift;
    FeedBitsAppend(r, p, v, post);
    FeedBitsAppend(r, p, w, post);
    FeedBitsIsInjective(FeedBits(r, p, v), FeedBits(r, p, w), p, post);
    FeedWord(r, p, v);
    FeedWord(r, p, w);
    var x, y := Xor(r, Pad(v, |p|)), Xor(r, Pad(w, |p|));
    ShiftByIsInjective(x, y, p, |v|);
    forall i | 0 <= i < |v|
      ensures v[i] == w[i]
    {
      assert x[i] == (r[i] != v[i]) && y[i] == (r[i] != w[i]);
    }
  }

  /** A message cut at the ends of a window. */
  lemma CutAt(x: seq<bool>, start: nat, end: nat)
    requires start <= end <= |x|
    ensures x == x[..start] + (x[start..end] + x[end..])
  {}

  /** Equal registers after messages that agree outside n consecutive bits mean equal messages. */
  lemma SameMessage(seed: seq<bool>, p: seq<bool>, x: seq<bool>, y: seq<bool>, start: nat)
    requires |seed| == |p| > 0 && p[|p| - 1]
    requires |x| == |y|
    requires forall i :: 0 <= i < |x| && !(start <= i < start + |p|) ==> x[i] == y[i]
    requires FeedBits(seed, p, x) == FeedBits(seed, p, y)
    ensures x == y
  {
    hide FeedBits;
    if start <= |x| {
      var end := if start + |p| <= |x| then start + |p| else |x|;
      CutAt(x, start, end);
      CutAt(y, start, end);
      assert x[..start] == y[..start] && x[end..] == y[end..];
      FeedBitsAppend(seed, p, x[..start], x[start..end] + x[end..]);
      FeedBitsAppend(seed, p, x[..start], y[start..end] + x[end..]);
      SameWindow(FeedBits(seed, p, x[..start]), p, x[start..end], y[start..end], x[end..]);
    }
  }

  /** Every burst error of at most n bits is detected, from any seed. */
  lemma BurstDetected(seed: seq<bool>, p: seq<bool>, x: seq<bool>, y: seq<bool>, start: nat)
    requires |seed| == |p| > 0 && p[|p| - 1]
    requires |x| == |y| && x != y
    requires forall i :: 0 <= i < |x| && !(start <= i < start + |p|) ==> x[i] == y[i]
    ensures FeedBits(seed, p, x) != FeedBits(seed, p, y)
  {
    if FeedBits(seed, p, x) == FeedBits(seed, p, y) {
      SameMessage(seed, p, x, y, start);
    }
  }

  /** The generator itself, as a message, leaves nothing behind. */
  lemma GeneratorVanishes(p: seq<bool>)
    requires |p| > 0
    ensures FeedBits(Zeros(|p|), p, [true] + p) == Zeros(|p|)
  {
    var g := [true] + p;
    assert Feed(Zeros(|p|), p, true) == p;
    assert g[1..] == p;
    FeedSelf(p, p);
  }

  /** The bound is sharp: adding the generator, n + 1 bits, is never detected. */
  lemma GeneratorUndetected(r: seq<bool>, p: seq<bool>, w: seq<bool>)
    requires |r| == |p| > 0 && |w| == |p| + 1
    ensures FeedBits(r, p, Xor(w, [true] + p)) == FeedBits(r, p, w)
  {
    hide FeedBits;
    var zero := Zeros(|p|);
    assert Xor(r, zero) == r;
    FeedBitsIsLinear(r, zero, p, w, [true] + p);
    GeneratorVanishes(p);
    assert Xor(FeedBits(r, p, w), zero) == FeedBits(r, p, w);
  }
}
