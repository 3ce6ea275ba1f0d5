/**
  What the streaming hashes share: folding a compression function over the whole blocks
  of a message, the padding rule, and the byte form of a length counter.
 */
module BlockStream {

  /** The state after compressing every whole n-byte block of data in turn. */
  function Blocks<S>(f: (S, seq<bv8>) -> S, n: nat, s: S, data: seq<bv8>): S
    requires n > 0
    decreases |data|
  {
    if |data| < n then s else Blocks(f, n, f(s, data[..n]), data[n..])
  }

  lemma OneBlockOf<S>(f: (S, seq<bv8>) -> S, n: nat, s: S, p: seq<bv8>)
    requires |p| == n > 0
    ensures Blocks(f, n, s, p) == f(s, p)
  {
    assert p[..n] == p && p[n..] == [];
  }

  lemma TwoBlocksOf<S>(f: (S, seq<bv8>) -> S, n: nat, s: S, p: seq<bv8>, q: seq<bv8>)
    requires |p| == |q| == n > 0
    ensures Blocks(f, n, s, p + q) == f(f(s, p), q)
  {
    assert (p + q)[..n] == p && (p + q)[n..] == q;
    OneBlockOf(f, n, f(s, p), q);
  }

  /** What is left of data after its whole blocks. */
  function Rest(n: nat, data: seq<bv8>): (r: seq<bv8>)
    requires n > 0
    ensures |r| < n
    decreases |data|
  {
    if |data| < n then data else Rest(n, data[n..])
  }

  lemma {:induction false} RestLength(n: nat, data: seq<bv8>)
    requires n > 0
    ensures |Rest(n, data)| == |data| % n
    decreases |data|
  {
    if |data| < n {
      SmallMod(|data|, n);
    } else {
      RestLength(n, data[n..]);
      ModAddModulus(|data| - n, n);
    }
  }

  lemma NothingYet<S>(f: (S, seq<bv8>) -> S, n: nat, s: S)
    requires n > 0
    ensures Blocks(f, n, s, []) == s && Rest(n, []) == []
  {}

  /** Only the state and the partial block matter for what comes after. */
  lemma {:induction false} BlocksAppend<S>(f: (S, seq<bv8>) -> S, n: nat, s: S, a: seq<bv8>, b: seq<bv8>)
    requires n > 0
    ensures Blocks(f, n, s, a + b) == Blocks(f, n, Blocks(f, n, s, a), Rest(n, a) + b)
    ensures Rest(n, a + b) == Rest(n, Rest(n, a) + b)
    decreases |a|
  {
    if |a| >= n {
      assert (a + b)[..n] == a[..n] && (a + b)[n..] == a[n..] + b;
      BlocksAppend(f, n, f(s, a[..n]), a[n..], b);
    }
  }

  /** A chunk that does not complete the block only joins the partial block. */
  lemma AbsorbPartial<S>(f: (S, seq<bv8>) -> S, n: nat, s: S, msg: seq<bv8>, chunk: seq<bv8>)
    requires n > 0 && |Rest(n, msg)| + |chunk| < n
    ensures Blocks(f, n, s, msg + chunk) == Blocks(f, n, s, msg)
    ensures Rest(n, msg + chunk) == Rest(n, msg) + chunk
  {
    BlocksAppend(f, n, s, msg, chunk);
  }

  /** A chunk that completes the block is compressed with it. */
  lemma AbsorbBlock<S>(f: (S, seq<bv8>) -> S, n: nat, s: S, msg: seq<bv8>, chunk: seq<bv8>)
    requires n > 0 && |Rest(n, msg)| + |chunk| == n
    ensures Blocks(f, n, s, msg + chunk) == f(Blocks(f, n, s, msg), Rest(n, msg) + chunk)
    ensures Rest(n, msg + chunk) == []
  {
    BlocksAppend(f, n, s, msg, chunk);
    var block := Rest(n, msg) + chunk;
    assert block[..n] == block && block[n..] == [];
  }

  // ----- padding

  function Zeros(k: nat): (z: seq<bv8>)
    ensures |z| == k
  {
    seq(k, _ => 0)
  }

  /** The least number of zero bytes that makes len + 1 + field + zeros a multiple of n. */
  function PadZeros(n: nat, field: nat, len: nat): (z: nat)
    requires n > 0
    ensures z < n
  {
    (n - (len + 1 + field) % n) % n
  }

  /** A one bit, zeros, and the length field (FIPS 180-4, 5.1; RFC 1321, 3.1 and 3.2). */
  function Padded(n: nat, msg: seq<bv8>, field: seq<bv8>): (p: seq<bv8>)
    requires n > 0
  {
    msg + [0x80] + Zeros(PadZeros(n, |field|, |msg|)) + field
  }

  /** The padded message is whole blocks. */
  lemma PaddedIsWhole(n: nat, msg: seq<bv8>, field: seq<bv8>)
    requires n > 0
    ensures |Padded(n, msg, field)| % n == 0
  {
    PadSum(n, |msg| + 1 + |field|);
  }

  /** With fewer zeros it would not be whole blocks. */
  lemma PaddingIsLeast(n: nat, msg: seq<bv8>, field: seq<bv8>, z: nat)
    requires n > 0 && |msg + [0x80] + Zeros(z) + field| % n == 0
    ensures z >= PadZeros(n, |field|, |msg|)
  {
    PadLeast(n, |msg| + 1 + |field|, z);
  }

  /** The zeros in terms of the partial block. */
  lemma PadZerosByRest(n: nat, field: nat, len: nat)
    requires field < n
    ensures var r := len % n;
            PadZeros(n, field, len) == if r + 1 + field <= n then n - 1 - field - r else 2 * n - 1 - field - r
  {
    var q, r := len / n, len % n;
    var used := len + 1 + field;
    assert len == n * q + r;
    var q', r' := used / n, used % n;
    assert used == n * q' + r';
    if r + 1 + field < n {
      UniqueQuotient(n, q, r + 1 + field, q', r');
      SmallMod(n - r', n);
    } else {
      assert used == n * (q + 1) + (r + 1 + field - n);
      UniqueQuotient(n, q + 1, r + 1 + field - n, q', r');
      if r' == 0 { ModSelf(n); } else { SmallMod(n - r', n); }
    }
  }

  /** The padding fits behind the partial block. */
  lemma PadOneBlock<S>(f: (S, seq<bv8>) -> S, n: nat, s: S, msg: seq<bv8>, field: seq<bv8>)
    requires |field| < n && |Rest(n, msg)| + 1 + |field| <= n
    ensures var r := Rest(n, msg);
            Blocks(f, n, s, Padded(n, msg, field))
              == f(Blocks(f, n, s, msg), r + [0x80] + Zeros(n - 1 - |field| - |r|) + field)
  {
    var r := Rest(n, msg);
    RestLength(n, msg);
    PadZerosByRest(n, |field|, |msg|);
    var tail := [0x80] + Zeros(n - 1 - |field| - |r|) + field;
    assert Padded(n, msg, field) == msg + tail;
    AbsorbBlock(f, n, s, msg, tail);
    assert r + tail == r + [0x80] + Zeros(n - 1 - |field| - |r|) + field;
  }

  /** The padding needs a block of its own for the length. */
  lemma PadTwoBlocks<S>(f: (S, seq<bv8>) -> S, n: nat, s: S, msg: seq<bv8>, field: seq<bv8>)
    requires |field| < n && |Rest(n, msg)| + 1 + |field| > n
    ensures var r := Rest(n, msg);
            Blocks(f, n, s, Padded(n, msg, field))
              == f(f(Blocks(f, n, s, msg), r + [0x80] + Zeros(n - 1 - |r|)), Zeros(n - |field|) + field)
  {
    var r := Rest(n, msg);
    RestLength(n, msg);
    PadZerosByRest(n, |field|, |msg|);
    var first, second := [0x80] + Zeros(n - 1 - |r|), Zeros(n - |field|) + field;
    assert Padded(n, msg, field) == (msg + first) + second;
    AbsorbBlock(f, n, s, msg, first);
    AbsorbBlock(f, n, s, msg + first, second);
    assert r + first == r + [0x80] + Zeros(n - 1 - |r|) && [] + second == second;
  }

  /** Everything but the length is in place: the state so far, and the block up to where
      the length goes. */
  ghost predicate PadDone<S>(f: (S, seq<bv8>) -> S, n: nat, short: nat, s: S, msg: seq<bv8>, st: S, block: seq<bv8>)
    requires 0 < short <= n
  {
    var r := Rest(n, msg);
    if |r| < short then
      st == Blocks(f, n, s, msg) && block == r + [0x80] + Zeros(short - 1 - |r|)
    else
      st == f(Blocks(f, n, s, msg), r + [0x80] + Zeros(n - 1 - |r|)) && block == Zeros(short)
  }

  /** A partial block too long for the length is filled with zeros and compressed. */
  lemma PadSpilled<S>(f: (S, seq<bv8>) -> S, n: nat, short: nat, s: S, msg: seq<bv8>)
    requires 0 < short <= n && short <= |Rest(n, msg)|
    ensures var r := Rest(n, msg);
            PadDone(f, n, short, s, msg, f(Blocks(f, n, s, msg), r + [0x80] + Zeros(n - 1 - |r|)), Zeros(short))
  {}

  /** Compressing that block with the length appended completes the padded message. */
  lemma LastBlock<S>(f: (S, seq<bv8>) -> S, n: nat, s: S, msg: seq<bv8>, field: seq<bv8>, st: S, block: seq<bv8>)
    requires |field| < n && PadDone(f, n, n - |field|, s, msg, st, block)
    ensures f(st, block + field) == Blocks(f, n, s, Padded(n, msg, field))
  {
    if |Rest(n, msg)| < n - |field| {
      PadOneBlock(f, n, s, msg, field);
    } else {
      PadTwoBlocks(f, n, s, msg, field);
    }
  }

  lemma PadSum(n: nat, used: nat)
    requires n > 0
    ensures (used + (n - used % n) % n) % n == 0
  {
    var q, r := used / n, used % n;
    assert used == n * q + r;
    if r == 0 {
      ModSelf(n);
      assert (n - r) % n == 0;
    } else {
      SmallMod(n - r, n);
      assert used + (n - r) == n * (q + 1);
      MultipleIsWhole(n, q + 1);
    }
  }

  lemma PadLeast(n: nat, used: nat, z: nat)
    requires n > 0 && (used + z) % n == 0
    ensures z >= (n - used % n) % n
  {
    var q, r := used / n, used % n;
    assert used == n * q + r;
    if r == 0 {
      ModSelf(n);
    } else {
      SmallMod(n - r, n);
      if z < n - r {
        var q', r' := (used + z) / n, (used + z) % n;
        assert n * q' == n * q + (r + z);
        UniqueQuotient(n, q, r + z, q', 0);
      }
    }
  }

  // ----- division by the block length

  lemma SmallMod(x: nat, n: nat)
    requires x < n
    ensures x % n == x
  {
    UniqueQuotient(n, 0, x, x / n, x % n);
  }

  lemma ModSelf(n: nat)
    requires n > 0
    ensures n % n == 0
  {
    UniqueQuotient(n, 1, 0, n / n, n % n);
  }

  lemma ModAddModulus(x: nat, n: nat)
    requires n > 0
    ensures (x + n) % n == x % n
  {
    var q, r := x / n, x % n;
    assert x == n * q + r;
    assert x + n == n * (q + 1) + r;
    UniqueQuotient(n, q + 1, r, (x + n) / n, (x + n) % n);
  }

  lemma MultipleIsWhole(n: nat, q: nat)
    requires n > 0
    ensures (n * q) % n == 0
  {
    UniqueQuotient(n, q, 0, (n * q) / n, (n * q) % n);
  }

  lemma UniqueQuotient(n: nat, q: int, r: nat, q': int, r': nat)
    requires r < n && r' < n && n * q + r == n * q' + r'
    ensures q == q' && r == r'
  {
    if q < q' {
      LargerProduct(n, q, q');
    } else if q' < q {
      LargerProduct(n, q', q);
    }
  }

  lemma LargerProduct(n: nat, q: int, q': int)
    requires q < q'
    ensures n * q' >= n * q + n
    decreases q' - q
  {
    assert n * q' == n * (q' - 1) + n;
    if q < q' - 1 {
      LargerProduct(n, q, q' - 1);
    }
  }

  lemma ModOfSum(x: nat, y: nat, m: nat)
    requires m > 0
    ensures (x % m + y) % m == (x + y) % m
  {
    var z := x % m + y;
    assert x + y == m * (x / m) + z;
    assert x + y == m * (x / m + z / m) + z % m;
    UniqueQuotient(m, x / m + z / m, z % m, (x + y) / m, (x + y) % m);
  }

  lemma FillOf(n: nat, len: nat, blocks: nat, part: nat)
    requires n > 0 && len == n * blocks + part
    ensures part % n == len % n
  {
    assert len == n * (blocks + part / n) + part % n;
    UniqueQuotient(n, blocks + part / n, part % n, len / n, len % n);
  }

  // ----- the bytes of a counter

  /** Byte k of a number, least significant first. */
  function Digit(x: nat, k: nat): (d: nat)
    ensures d < 256
  {
    if k == 0 then x % 256 else Digit(x / 256, k - 1)
  }

  lemma FirstDigit(x: nat)
    requires x < 256
    ensures Digit(x, 0) == x
  {}

  /** A number below 256 has one digit. */
  lemma {:induction false} NoDigit(x: nat, k: nat)
    requires x < 256 && k > 0
    ensures Digit(x, k) == 0
  {
    if k > 1 {
      NoDigit(x / 256, k - 1);
    }
  }

  /** The number whose bytes, least significant first, are ds. */
  function FromDigits(ds: seq<nat>): nat {
    if ds == [] then 0 else ds[0] + 256 * FromDigits(ds[1..])
  }

  lemma {:induction false} DigitOfDigits(ds: seq<nat>, k: nat)
    requires k < |ds| && forall i :: 0 <= i < |ds| ==> ds[i] < 256
    ensures Digit(FromDigits(ds), k) == ds[k]
  {
    assert FromDigits(ds) % 256 == ds[0] && FromDigits(ds) / 256 == FromDigits(ds[1..]);
    if k > 0 {
      DigitOfDigits(ds[1..], k - 1);
    }
  }

  function Pow256(m: nat): nat {
    if m == 0 then 1 else 256 * Pow256(m - 1)
  }

  lemma {:induction false} DigitsOfTwoWords(lo: nat, hi: nat, m: nat, k: nat)
    requires lo < Pow256(m)
    ensures Digit(lo + Pow256(m) * hi, k) == if k < m then Digit(lo, k) else Digit(hi, k - m)
    decreases m
  {
    if m > 0 {
      var x := lo + Pow256(m) * hi;
      assert Pow256(m) * hi == 256 * (Pow256(m - 1) * hi);
      assert x % 256 == lo % 256 && x / 256 == lo / 256 + Pow256(m - 1) * hi;
      if k > 0 {
        DigitsOfTwoWords(lo / 256, hi, m - 1, k - 1);
      }
    }
  }

  /** The low `bytes` bytes of x as memory holds them on a little-endian host. */
  function LittleEndian(x: nat, bytes: nat): (s: seq<bv8>)
    ensures |s| == bytes
  {
    seq(bytes, i requires 0 <= i < bytes => Digit(x, i) as bv8)
  }

  /** The low `bytes` bytes of x, most significant first. */
  function BigEndian(x: nat, bytes: nat): (s: seq<bv8>)
    ensures |s| == bytes
  {
    seq(bytes, i requires 0 <= i < bytes => Digit(x, bytes - 1 - i) as bv8)
  }

  /** os_htobe64 of a 64-bit counter on a little-endian host. */
  function ByteSwap64(x: nat): nat {
    FromDigits(seq(8, i requires 0 <= i < 8 => Digit(x, 7 - i)))
  }

  /** Swapped and then stored by the host, the counter lies big-endian in memory. */
  lemma SwappedCounterIsBigEndian(x: nat)
    ensures LittleEndian(ByteSwap64(x), 8) == BigEndian(x, 8)
  {
    var ds := seq(8, i requires 0 <= i < 8 => Digit(x, 7 - i));
    forall k | 0 <= k < 8
      ensures LittleEndian(ByteSwap64(x), 8)[k] == BigEndian(x, 8)[k]
    {
      DigitOfDigits(ds, k);
    }
  }
}
