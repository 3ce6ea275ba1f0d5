/** digest_hmac_md5 of hmac.c against RFC 2104, section 2. */
module Hmac {
  import opened Memory
  import opened BlockStream
  import opened Widths
  import opened Md5Spec
  import opened Md5Stream

  const BLOCK: nat := 64

  /** A key longer than a block is hashed first; then zeros are appended up to a block. */
  function BlockKey(key: seq<bv8>): (k: seq<bv8>)
    ensures |k| == BLOCK
  {
    var short := if |key| > BLOCK then Digest(key) else key;
    short + Zeros(BLOCK - |short|)
  }

  function XorAll(s: seq<bv8>, pad: bv8): (r: seq<bv8>)
    ensures |r| == |s|
  {
    seq(|s|, i requires 0 <= i < |s| => s[i] ^ pad)
  }

  /** H(K XOR opad, H(K XOR ipad, text)). */
  function HmacMd5(key: seq<bv8>, text: seq<bv8>): (d: seq<bv8>)
    ensures |d| == 16
  {
    var k := BlockKey(key);
    Digest(XorAll(k, 0x5c) + Digest(XorAll(k, 0x36) + text))
  }

  /** The key, or its digest when it is longer than a block. */
  method ShortKey(key: array<bv8>) returns (tk: array<bv8>, len: nat)
    requires key.Length + 63 <= INT_MAX
    ensures len <= BLOCK && len <= tk.Length
    ensures tk[..len] == if key.Length > BLOCK then Digest(key[..]) else key[..]
  {
    hide Digest, State, Rest, Counts;
    if key.Length > BLOCK {
      var ctx := new Context();
      ctx.Update(key, key.Length);
      assert ctx.msg == key[..];
      tk, len := new bv8[16], 16;
      ctx.Final(tk);
    } else {
      tk, len := key, key.Length;
      assert key[..len] == key[..];
    }
  }

  /** The zero-extended key with every byte of the block XORed. */
  method KeyPad(tk: array<bv8>, len: nat, pad: bv8) returns (k: array<bv8>)
    requires len <= BLOCK && len <= tk.Length
    ensures fresh(k) && k.Length == 65
    ensures k[..64] == XorAll(tk[..len] + Zeros(BLOCK - len), pad)
  {
    k := new bv8[65];
    ClearBytes(k, 0, 65);
    CopyBytes(k, 0, tk, 0, len);
    ghost var was := k[..];
    assert was[..64] == tk[..len] + Zeros(BLOCK - len);
    for i := 0 to 64
      invariant forall j :: 0 <= j < i ==> k[j] == was[j] ^ pad
      invariant forall j :: i <= j < 65 ==> k[j] == was[j]
    {
      k[i] := k[i] ^ pad;
    }
  }

  /** The digest of a 64-byte pad followed by the first len bytes of text; out may be text. */
  method Pass(pad: array<bv8>, text: array<bv8>, len: nat, out: array<bv8>)
    requires pad.Length >= 64 && len <= text.Length && len + 63 <= INT_MAX && out.Length >= 16
    modifies out
    ensures out[..16] == Digest(old(pad[..64]) + old(text[..len]))
    ensures out[16..] == old(out[16..])
  {
    hide Digest;
    var ctx := new Context();
    ctx.Update(pad, 64);
    ctx.Update(text, len);
    assert ctx.msg == pad[..64] + text[..len];
    ctx.Final(out);
  }

  /** The digest buffer takes the inner digest, is the input of the outer pass and then
      its output; it may even be the message's or the key's own memory. */
  method DigestHmacMd5(msg: array<bv8>, key: array<bv8>, digest: array<bv8>)
    requires msg.Length + 63 <= INT_MAX && key.Length + 63 <= INT_MAX && digest.Length >= 16
    modifies digest
    ensures digest[..16] == HmacMd5(old(key[..]), old(msg[..]))
    ensures digest[16..] == old(digest[16..])
  {
    hide Digest, XorAll;
    var tk, len := ShortKey(key);
    var ipad := KeyPad(tk, len, 0x36);
    var opad := KeyPad(tk, len, 0x5c);
    assert msg[..msg.Length] == msg[..];
    Pass(ipad, msg, msg.Length, digest);
    Pass(opad, digest, 16, digest);
  }
}
