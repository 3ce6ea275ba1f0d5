/** memcpy and memset on byte buffers. */
module Memory {

  method CopyBytes(dst: array<bv8>, at: nat, src: array<bv8>, from: nat, n: nat)
    requires at + n <= dst.Length && from + n <= src.Length && src != dst
    modifies dst
    ensures dst[..] == old(dst[..at]) + src[from..from + n] + old(dst[at + n..])
  {
    for i := 0 to n
      invariant forall k :: at <= k < at + i ==> dst[k] == src[from + (k - at)]
      invariant forall k :: 0 <= k < dst.Length && !(at <= k < at + i) ==> dst[k] == old(dst[k])
    {
      dst[at + i] := src[from + i];
    }
  }

  method ClearBytes(dst: array<bv8>, at: nat, n: nat)
    requires at + n <= dst.Length
    modifies dst
    ensures dst[..] == old(dst[..at]) + seq(n, _ => 0) + old(dst[at + n..])
  {
    for i := 0 to n
      invariant forall k :: at <= k < at + i ==> dst[k] == 0
      invariant forall k :: 0 <= k < dst.Length && !(at <= k < at + i) ==> dst[k] == old(dst[k])
    {
      dst[at + i] := 0;
    }
  }

  /** Overwrites the bytes at `at` with those of s. */
  method StoreBytes(dst: array<bv8>, at: nat, s: seq<bv8>)
    requires at + |s| <= dst.Length
    modifies dst
    ensures dst[..] == old(dst[..at]) + s + old(dst[at + |s|..])
  {
    for i := 0 to |s|
      invariant forall k :: at <= k < at + i ==> dst[k] == s[k - at]
      invariant forall k :: 0 <= k < dst.Length && !(at <= k < at + i) ==> dst[k] == old(dst[k])
    {
      dst[at + i] := s[i];
    }
  }

  /** Two adjacent pieces of a buffer, appended in turn. */
  lemma Joined(m: seq<bv8>, data: array<bv8>, a: nat, b: nat, c: nat)
    requires a <= b <= c <= data.Length
    ensures (m + data[a..b]) + data[b..c] == m + data[a..c]
  {
    assert data[a..b] + data[b..c] == data[a..c];
  }
}
