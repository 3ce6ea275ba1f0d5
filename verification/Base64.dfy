/** utility/base64/base64.c (RFC 4648, section 4), on byte strings and in place. */
module Base64 {

  const PAD: bv8 := 0x3d            // '='

  /** encoding_table. */
  function Symbol(i: bv8): bv8
    requires i < 64
  {
    if i < 26 then i + 0x41                 // A-Z
    else if i < 52 then i + 0x47            // a-z
    else if i < 62 then i - 4               // 0-9
    else if i == 62 then 0x2b else 0x2f     // + /
  }

  /** decoding_table: every byte outside the alphabet stands for 0. */
  function Index(c: bv8): bv8 {
    if 0x41 <= c <= 0x5a then c - 0x41
    else if 0x61 <= c <= 0x7a then c - 0x47
    else if 0x30 <= c <= 0x39 then c + 4
    else if c == 0x2b then 62
    else if c == 0x2f then 63
    else 0
  }

  predicate InAlphabet(c: bv8) {
    0x41 <= c <= 0x5a || 0x61 <= c <= 0x7a || 0x30 <= c <= 0x39 || c == 0x2b || c == 0x2f
  }

  lemma IndexOfSymbol(i: bv8)
    requires i < 64
    ensures Index(Symbol(i)) == i && InAlphabet(Symbol(i))
  {}

  /** A byte is the symbol of its index exactly when it is in the alphabet. */
  lemma SymbolOfIndex(c: bv8)
    ensures Index(c) < 64
    ensures Symbol(Index(c)) == c <==> InAlphabet(c)
  {}

  // ----- groups

  function Triple(a: bv8, b: bv8, c: bv8): bv32 {
    ((a as bv32) << 16) + ((b as bv32) << 8) + (c as bv32)
  }

  function Sextet(t: bv32, shift: nat): bv8
    requires shift == 0 || shift == 6 || shift == 12 || shift == 18
  {
    match shift
    case 18 => ((t >> 18) & 0x3f) as bv8
    case 12 => ((t >> 12) & 0x3f) as bv8
    case 6 => ((t >> 6) & 0x3f) as bv8
    case _ => (t & 0x3f) as bv8
  }

  function Joined(a: bv8, b: bv8, c: bv8, d: bv8): bv32 {
    ((a as bv32) << 18) + ((b as bv32) << 12) + ((c as bv32) << 6) + (d as bv32)
  }

  function Octet0(t: bv32): bv8 { ((t >> 16) & 0xff) as bv8 }
  function Octet1(t: bv32): bv8 { ((t >> 8) & 0xff) as bv8 }
  function Octet2(t: bv32): bv8 { (t & 0xff) as bv8 }

  lemma SextetsJoin(t: bv32)
    requires t < 0x100_0000
    ensures Sextet(t, 18) < 64 && Sextet(t, 12) < 64 && Sextet(t, 6) < 64 && Sextet(t, 0) < 64
    ensures Joined(Sextet(t, 18), Sextet(t, 12), Sextet(t, 6), Sextet(t, 0)) == t
  {}

  lemma OctetsOfTriple(a: bv8, b: bv8, c: bv8)
    ensures Triple(a, b, c) < 0x100_0000
    ensures Octet0(Triple(a, b, c)) == a && Octet1(Triple(a, b, c)) == b && Octet2(Triple(a, b, c)) == c
  {}

  lemma SextetsOfJoined(a: bv8, b: bv8, c: bv8, d: bv8)
    requires a < 64 && b < 64 && c < 64 && d < 64
    ensures var t := Joined(a, b, c, d);
            t < 0x100_0000 && Sextet(t, 18) == a && Sextet(t, 12) == b && Sextet(t, 6) == c && Sextet(t, 0) == d
  {}

  lemma TripleOfOctets(t: bv32)
    requires t < 0x100_0000
    ensures Triple(Octet0(t), Octet1(t), Octet2(t)) == t
  {}

  /** Four symbols for three octets. */
  function Quad(a: bv8, b: bv8, c: bv8): (q: seq<bv8>)
    ensures |q| == 4
  {
    var t := Triple(a, b, c);
    OctetsOfTriple(a, b, c);
    SextetsJoin(t);
    [Symbol(Sextet(t, 18)), Symbol(Sextet(t, 12)), Symbol(Sextet(t, 6)), Symbol(Sextet(t, 0))]
  }

  /** Three octets for four symbols. */
  function Octets(q: seq<bv8>): (o: seq<bv8>)
    requires |q| == 4
    ensures |o| == 3
  {
    var t := Joined(Index(q[0]), Index(q[1]), Index(q[2]), Index(q[3]));
    [Octet0(t), Octet1(t), Octet2(t)]
  }

  // ----- texts

  function Encode(x: seq<bv8>): (s: seq<bv8>)
    ensures |s| == 4 * ((|x| + 2) / 3)
  {
    if x == [] then []
    else if |x| == 1 then Quad(x[0], 0, 0)[..2] + [PAD, PAD]
    else if |x| == 2 then Quad(x[0], x[1], 0)[..3] + [PAD]
    else Quad(x[0], x[1], x[2]) + Encode(x[3..])
  }

  predicate WholeQuads(s: seq<bv8>) {
    |s| > 0 && |s| % 4 == 0
  }

  function Pads(s: seq<bv8>): (n: nat)
    requires WholeQuads(s)
    ensures n <= 2
  {
    (if s[|s| - 1] == PAD then 1 else 0) + (if s[|s| - 2] == PAD then 1 else 0)
  }

  function Decode(s: seq<bv8>): (x: seq<bv8>)
    requires WholeQuads(s)
    ensures |x| == |s| / 4 * 3 - Pads(s)
  {
    if |s| == 4 then Octets(s)[..3 - Pads(s)] else Octets(s[..4]) + Decode(s[4..])
  }

  lemma OctetsOfQuad(a: bv8, b: bv8, c: bv8)
    ensures Octets(Quad(a, b, c)) == [a, b, c]
    ensures forall i :: 0 <= i < 4 ==> InAlphabet(Quad(a, b, c)[i])
  {
    hide Symbol, Index, Sextet, Joined, Octet0, Octet1, Octet2, Triple;
    var t := Triple(a, b, c);
    OctetsOfTriple(a, b, c);
    SextetsJoin(t);
    IndexOfSymbol(Sextet(t, 18));
    IndexOfSymbol(Sextet(t, 12));
    IndexOfSymbol(Sextet(t, 6));
    IndexOfSymbol(Sextet(t, 0));
  }

  /** The padding character counts as index 0. */
  lemma PadIsZero()
    ensures Index(PAD) == 0 && !InAlphabet(PAD)
  {}

  /** With one or two octets the symbols given up for padding stand for 0. */
  lemma ShortQuad(a: bv8, b: bv8)
    ensures Index(Quad(a, b, 0)[3]) == 0 && Index(Quad(a, 0, 0)[2]) == 0 && Index(Quad(a, 0, 0)[3]) == 0
  {
    hide Symbol, Index;
    ShortSextets(a, b);
    IndexOfSymbol(0);
  }

  lemma ShortSextets(a: bv8, b: bv8)
    ensures Sextet(Triple(a, b, 0), 0) == 0
    ensures Sextet(Triple(a, 0, 0), 6) == 0 && Sextet(Triple(a, 0, 0), 0) == 0
  {}

  lemma SameIndices(p: seq<bv8>, q: seq<bv8>)
    requires |p| == |q| == 4 && forall i :: 0 <= i < 4 ==> Index(p[i]) == Index(q[i])
    ensures Octets(p) == Octets(q)
  {
    hide Index, Joined, Octet0, Octet1, Octet2;
  }

  lemma DecodeOfOne(a: bv8)
    ensures Decode(Quad(a, 0, 0)[..2] + [PAD, PAD]) == [a]
  {
    hide Quad, Octets, Index, InAlphabet;
    PadIsZero();
    OctetsOfQuad(a, 0, 0);
    ShortQuad(a, 0);
    SameIndices(Quad(a, 0, 0)[..2] + [PAD, PAD], Quad(a, 0, 0));
  }

  lemma DecodeOfTwo(a: bv8, b: bv8)
    ensures Decode(Quad(a, b, 0)[..3] + [PAD]) == [a, b]
  {
    hide Quad, Octets, Index, InAlphabet;
    PadIsZero();
    OctetsOfQuad(a, b, 0);
    ShortQuad(a, b);
    SameIndices(Quad(a, b, 0)[..3] + [PAD], Quad(a, b, 0));
  }

  lemma DecodeOfThree(a: bv8, b: bv8, c: bv8, rest: seq<bv8>)
    requires rest == [] || WholeQuads(rest)
    ensures Decode(Quad(a, b, c) + rest) == [a, b, c] + if rest == [] then [] else Decode(rest)
  {
    hide Quad, Octets, Index, InAlphabet;
    PadIsZero();
    OctetsOfQuad(a, b, c);
    var s := Quad(a, b, c) + rest;
    assert s[..4] == Quad(a, b, c) && s[4..] == rest;
    if rest == [] {
      assert s == Quad(a, b, c);
      assert InAlphabet(s[2]) && InAlphabet(s[3]);
    }
  }

  /** Decoding an encoded string gives it back, at its exact length. */
  lemma {:induction false} DecodeOfEncode(x: seq<bv8>)
    requires x != []
    ensures WholeQuads(Encode(x)) && Decode(Encode(x)) == x
    decreases |x|
  {
    hide Quad, Decode;
    if |x| == 1 {
      DecodeOfOne(x[0]);
    } else if |x| == 2 {
      DecodeOfTwo(x[0], x[1]);
    } else {
      if |x| > 3 {
        DecodeOfEncode(x[3..]);
      }
      DecodeOfThree(x[0], x[1], x[2], Encode(x[3..]));
      assert x == [x[0], x[1], x[2]] + x[3..];
    }
  }

  // ----- the canonical texts

  predicate Plain(q: seq<bv8>) {
    forall i :: 0 <= i < |q| ==> InAlphabet(q[i])
  }

  /** The last four: no padding, one '=' with two zero bits before it, or two with four. */
  predicate LastQuad(q: seq<bv8>)
    requires |q| == 4
  {
    || Plain(q)
    || (Plain(q[..3]) && q[3] == PAD && Index(q[2]) & 3 == 0)
    || (Plain(q[..2]) && q[2] == PAD && q[3] == PAD && Index(q[1]) & 15 == 0)
  }

  predicate Canonical(s: seq<bv8>)
    requires WholeQuads(s)
  {
    Plain(s[..|s| - 4]) && LastQuad(s[|s| - 4..])
  }

  /** The symbols that the octets of four bytes encode to. */
  lemma QuadOfOctets(q: seq<bv8>)
    requires |q| == 4
    ensures var o := Octets(q);
            Quad(o[0], o[1], o[2]) == q <==> Plain(q)
  {
    hide Symbol, Index, InAlphabet, Sextet, Joined, Octet0, Octet1, Octet2, Triple;
    SymbolOfIndex(q[0]);
    SymbolOfIndex(q[1]);
    SymbolOfIndex(q[2]);
    SymbolOfIndex(q[3]);
    SextetsOfJoined(Index(q[0]), Index(q[1]), Index(q[2]), Index(q[3]));
    TripleOfOctets(Joined(Index(q[0]), Index(q[1]), Index(q[2]), Index(q[3])));
    PlainFour(q);
  }

  lemma PlainFour(q: seq<bv8>)
    requires |q| == 4
    ensures Plain(q) <==> InAlphabet(q[0]) && InAlphabet(q[1]) && InAlphabet(q[2]) && InAlphabet(q[3])
    ensures Plain(q[..3]) <==> InAlphabet(q[0]) && InAlphabet(q[1]) && InAlphabet(q[2])
    ensures Plain(q[..2]) <==> InAlphabet(q[0]) && InAlphabet(q[1])
  {
    hide InAlphabet;
  }

  /** What is left of the sextets when the octets behind them are dropped. */
  lemma CutSextets(a: bv8, b: bv8, c: bv8, d: bv8)
    requires a < 64 && b < 64 && c < 64 && d < 64
    ensures var t := Joined(a, b, c, d); var u := Triple(Octet0(t), Octet1(t), 0);
            Sextet(u, 18) == a && Sextet(u, 12) == b && Sextet(u, 6) == c & 0x3c
    ensures var t := Joined(a, b, c, d); var u := Triple(Octet0(t), 0, 0);
            Sextet(u, 18) == a && Sextet(u, 12) == b & 0x30
  {}

  /** A cut symbol is the given one exactly when the bits cut off are zero. */
  lemma CutSymbols(c: bv8)
    ensures Index(c) & 0x3c < 64 && Index(c) & 0x30 < 64
    ensures Symbol(Index(c) & 0x3c) == c <==> InAlphabet(c) && Index(c) & 3 == 0
    ensures Symbol(Index(c) & 0x30) == c <==> InAlphabet(c) && Index(c) & 15 == 0
  {}

  lemma LastQuadOne(q: seq<bv8>)
    requires |q| == 4 && q[3] == PAD
    ensures Quad(Octets(q)[0], Octets(q)[1], 0)[..3] + [PAD] == q
       <==> Plain(q[..3]) && Index(q[2]) & 3 == 0
  {
    hide Symbol, Index, InAlphabet, Sextet, Joined, Octet0, Octet1, Octet2, Triple;
    SymbolOfIndex(q[0]);
    SymbolOfIndex(q[1]);
    SymbolOfIndex(q[2]);
    SymbolOfIndex(q[3]);
    CutSymbols(q[2]);
    CutSextets(Index(q[0]), Index(q[1]), Index(q[2]), Index(q[3]));
    PlainFour(q);
  }

  lemma LastQuadTwo(q: seq<bv8>)
    requires |q| == 4 && q[2] == PAD && q[3] == PAD
    ensures Quad(Octets(q)[0], 0, 0)[..2] + [PAD, PAD] == q
       <==> Plain(q[..2]) && Index(q[1]) & 15 == 0
  {
    hide Symbol, Index, InAlphabet, Sextet, Joined, Octet0, Octet1, Octet2, Triple;
    SymbolOfIndex(q[0]);
    SymbolOfIndex(q[1]);
    SymbolOfIndex(q[2]);
    SymbolOfIndex(q[3]);
    CutSymbols(q[1]);
    CutSextets(Index(q[0]), Index(q[1]), Index(q[2]), Index(q[3]));
    PlainFour(q);
  }

  lemma EncodeOfDecodeLast(q: seq<bv8>)
    requires |q| == 4
    ensures Encode(Decode(q)) == q <==> LastQuad(q)
  {
    hide Quad, Octets, Index, InAlphabet;
    PadIsZero();
    PlainFour(q);
    var o := Octets(q);
    if Pads(q) == 0 {
      QuadOfOctets(q);
      assert Encode(o) == Quad(o[0], o[1], o[2]) + Encode([]) by { assert o[3..] == []; }
      assert o[..3] == o && Quad(o[0], o[1], o[2]) + [] == Quad(o[0], o[1], o[2]);
    } else if Pads(q) == 1 {
      assert Encode(o[..2])[3] == PAD;
      if q[3] == PAD {
        LastQuadOne(q);
      }
    } else {
      LastQuadTwo(q);
    }
  }

  /** For every text of whole groups of four, encoding its decoding gives it back exactly
      when it is canonical. */
  lemma {:induction false} EncodeOfDecode(s: seq<bv8>)
    requires WholeQuads(s)
    ensures Encode(Decode(s)) == s <==> Canonical(s)
    decreases |s|
  {
    hide Quad, Octets, LastQuad, InAlphabet;
    if |s| == 4 {
      EncodeOfDecodeLast(s);
      assert s[0..] == s;
    } else {
      var q, rest := s[..4], s[4..];
      var o := Octets(q);
      EncodeOfDecode(rest);
      QuadOfOctets(q);
      assert Decode(s) == o + Decode(rest);
      assert (o + Decode(rest))[3..] == Decode(rest);
      assert Encode(Decode(s)) == Quad(o[0], o[1], o[2]) + Encode(Decode(rest));
      assert s == q + rest;
      CanonicalStep(s);
    }
  }

  lemma CanonicalStep(s: seq<bv8>)
    requires WholeQuads(s) && |s| > 4
    ensures Canonical(s) <==> Plain(s[..4]) && Canonical(s[4..])
  {
    hide LastQuad, InAlphabet;
    var rest := s[4..];
    assert s[|s| - 4..] == rest[|rest| - 4..];
    assert s[..|s| - 4] == s[..4] + rest[..|rest| - 4];
    PlainAppend(s[..4], rest[..|rest| - 4]);
  }

  lemma PlainAppend(a: seq<bv8>, b: seq<bv8>)
    ensures Plain(a + b) <==> Plain(a) && Plain(b)
  {
    hide InAlphabet;
    if Plain(a + b) {
      assert forall i :: 0 <= i < |a| ==> a[i] == (a + b)[i];
      assert forall i :: 0 <= i < |b| ==> b[i] == (a + b)[|a| + i];
    }
  }

  // ----- in place

  /** The groups of four as the first loop writes them: a short group is extended with zeros. */
  function Groups(x: seq<bv8>): (s: seq<bv8>)
    ensures |s| == 4 * ((|x| + 2) / 3)
  {
    if x == [] then []
    else if |x| == 1 then Quad(x[0], 0, 0)
    else if |x| == 2 then Quad(x[0], x[1], 0)
    else Quad(x[0], x[1], x[2]) + Groups(x[3..])
  }

  lemma GroupsStep(x: seq<bv8>)
    ensures Groups([]) == []
    ensures x != [] ==>
      var b, c := if |x| > 1 then x[1] else 0, if |x| > 2 then x[2] else 0;
      Groups(x) == Quad(x[0], b, c) + Groups(x[if |x| < 3 then |x| else 3..])
  {
    hide Quad;
  }

  /** mod_table. */
  function PadCount(n: nat): (p: nat)
    ensures p <= 2
  {
    match n % 3
    case 0 => 0
    case 1 => 2
    case _ => 1
  }

  function Equals(p: nat): (s: seq<bv8>)
    ensures |s| == p
  {
    seq(p, _ => PAD)
  }

  /** Writing '=' over the end of the groups gives the encoding. */
  lemma {:induction false} PaddingOverwrites(x: seq<bv8>)
    ensures PadCount(|x|) <= |Groups(x)|
    ensures Encode(x) == Groups(x)[..|Groups(x)| - PadCount(|x|)] + Equals(PadCount(|x|))
    decreases |x|
  {
    if |x| < 3 {
      ShortOverwrites(x);
    } else {
      hide Quad, Encode, Groups, PadCount, Equals;
      PaddingOverwrites(x[3..]);
      LongStep(x);
      CutBehind(Quad(x[0], x[1], x[2]), Groups(x[3..]), PadCount(|x|));
    }
  }

  lemma ShortOverwrites(x: seq<bv8>)
    requires |x| < 3
    ensures PadCount(|x|) <= |Groups(x)|
    ensures Encode(x) == Groups(x)[..|Groups(x)| - PadCount(|x|)] + Equals(PadCount(|x|))
  {
    hide Quad, Symbol, Triple, Sextet;
    if |x| == 0 {
      assert Encode(x) == [] == Groups(x);
    } else if |x| == 1 {
      assert Groups(x) == Quad(x[0], 0, 0);
    } else {
      assert Groups(x) == Quad(x[0], x[1], 0);
    }
  }

  lemma LongStep(x: seq<bv8>)
    requires |x| >= 3
    ensures PadCount(|x|) == PadCount(|x[3..]|)
    ensures Groups(x) == Quad(x[0], x[1], x[2]) + Groups(x[3..])
    ensures Encode(x) == Quad(x[0], x[1], x[2]) + Encode(x[3..])
  {
    hide Quad;
  }

  lemma CutBehind(q: seq<bv8>, s: seq<bv8>, p: nat)
    requires p <= |s|
    ensures (q + s)[..|q + s| - p] == q + s[..|s| - p]
  {}

  /** base64_encode into a buffer that is large enough. */
  method EncodeInto(input: array<bv8>, output: array<bv8>) returns (outLen: nat)
    requires input != output && 4 * ((input.Length + 2) / 3) <= output.Length
    modifies output
    ensures outLen == 4 * ((input.Length + 2) / 3)
    ensures output[..outLen] == Encode(input[..])
    ensures output[outLen..] == old(output[outLen..])
  {
    outLen := 4 * ((input.Length + 2) / 3);
    WriteGroups(input, output, outLen);
    PaddingOverwrites(input[..]);
    Overwrite(output, outLen, PadCount(input.Length));
  }

  method WriteGroups(input: array<bv8>, output: array<bv8>, outLen: nat)
    requires input != output && outLen == 4 * ((input.Length + 2) / 3) <= output.Length
    modifies output
    ensures output[..outLen] == Groups(input[..])
    ensures output[outLen..] == old(output[outLen..])
  {
    hide Quad, Groups;
    var i, j := 0, 0;
    assert input[0..] == input[..];
    while i < input.Length
      invariant 0 <= i <= input.Length && 0 <= j <= outLen
      invariant output[..j] + Groups(input[i..]) == Groups(input[..])
      invariant output[outLen..] == old(output[outLen..])
    {
      ghost var rest := input[i..];
      ghost var done := output[..j];
      GroupsStep(rest);
      var a, b, c := input[i], 0, 0;
      i := i + 1;
      if i < input.Length { b := input[i]; i := i + 1; }
      if i < input.Length { c := input[i]; i := i + 1; }
      StoreQuad(output, j, Quad(a, b, c));
      j := j + 4;
      assert output[..j] == done + Quad(a, b, c);
      assert input[i..] == rest[if |rest| < 3 then |rest| else 3..];
    }
    GroupsStep([]);
    assert output[..j] + [] == output[..j];
  }

  method StoreQuad(output: array<bv8>, j: nat, q: seq<bv8>)
    requires |q| == 4 && j + 4 <= output.Length
    modifies output
    ensures output[..j + 4] == old(output[..j]) + q
    ensures output[j + 4..] == old(output[j + 4..])
  {
    output[j], output[j + 1], output[j + 2], output[j + 3] := q[0], q[1], q[2], q[3];
  }

  method Overwrite(output: array<bv8>, end: nat, p: nat)
    requires p <= end <= output.Length
    modifies output
    ensures output[..end] == old(output[..end - p]) + Equals(p)
    ensures output[end..] == old(output[end..])
  {
    for i := 0 to p
      invariant forall k :: end - i <= k < end ==> output[k] == PAD
      invariant forall k :: 0 <= k < output.Length && !(end - i <= k < end) ==> output[k] == old(output[k])
    {
      output[end - 1 - i] := PAD;
    }
  }

  /** base64_decode into a buffer that is large enough. The source reads the last two
      characters and whole groups of four, so it needs at least one group. */
  method DecodeInto(input: array<bv8>, output: array<bv8>) returns (outLen: nat)
    requires input != output && WholeQuads(input[..]) && input.Length / 4 * 3 - Pads(input[..]) <= output.Length
    modifies output
    ensures outLen == input.Length / 4 * 3 - Pads(input[..])
    ensures output[..outLen] == Decode(input[..])
    ensures output[outLen..] == old(output[outLen..])
  {
    outLen := input.Length / 4 * 3;
    if input[input.Length - 1] == PAD { outLen := outLen - 1; }
    if input[input.Length - 2] == PAD { outLen := outLen - 1; }
    WriteOctets(input, output, outLen);
  }

  method WriteOctets(input: array<bv8>, output: array<bv8>, outLen: nat)
    requires input != output && WholeQuads(input[..]) && outLen == |Decode(input[..])| <= output.Length
    modifies output
    ensures output[..outLen] == Decode(input[..])
    ensures output[outLen..] == old(output[outLen..])
  {
    hide Octets, Decode, Remaining, Pads;
    var i, j := 0, 0;
    RemainingEnds(input[..]);
    assert input[0..] == input[..];
    while i < input.Length
      invariant 0 <= i <= input.Length && i % 4 == 0 && j <= outLen
      invariant output[..j] + Remaining(input[i..]) == Decode(input[..])
      invariant output[outLen..] == old(output[outLen..])
    {
      j := WriteGroup(input, i, output, j, outLen);
      i := i + 4;
    }
    assert input[i..] == [] && output[..j] + [] == output[..j];
  }

  /** Four characters become the next octets, as many as there is text for. */
  method WriteGroup(input: array<bv8>, i: nat, output: array<bv8>, j: nat, outLen: nat) returns (j': nat)
    requires input != output && i < input.Length && i % 4 == 0 && input.Length % 4 == 0
    requires j + |Remaining(input[i..])| == outLen <= output.Length
    modifies output
    ensures j <= j' <= outLen
    ensures output[..j'] + Remaining(input[i + 4..]) == old(output[..j]) + Remaining(input[i..])
    ensures output[outLen..] == old(output[outLen..])
  {
    hide Octets, Decode, Remaining, Pads;
    ghost var rest := input[i..];
    var o := Octets([input[i], input[i + 1], input[i + 2], input[i + 3]]);
    RemainingStep(rest, o);
    assert rest[4..] == input[i + 4..];
    j' := StoreOctets(output, j, outLen, o);
  }

  /** What the loop still has to write. */
  ghost function Remaining(s: seq<bv8>): seq<bv8>
    requires |s| % 4 == 0
  {
    if s == [] then [] else Decode(s)
  }

  lemma RemainingEnds(s: seq<bv8>)
    requires WholeQuads(s)
    ensures Remaining(s) == Decode(s) && Remaining([]) == []
  {
    hide Decode;
  }

  lemma RemainingStep(s: seq<bv8>, o: seq<bv8>)
    requires WholeQuads(s) && o == Octets([s[0], s[1], s[2], s[3]])
    ensures var k := if |Remaining(s)| < 3 then |Remaining(s)| else 3;
            Remaining(s) == o[..k] + Remaining(s[4..])
  {
    hide Octets;
    assert s[..4] == [s[0], s[1], s[2], s[3]];
    if |s| == 4 {
      assert s == s[..4];
    } else {
      assert o[..3] == o;
    }
  }

  /** The three guarded stores. */
  method StoreOctets(output: array<bv8>, from: nat, end: nat, o: seq<bv8>) returns (j: nat)
    requires |o| == 3 && from <= end <= output.Length
    modifies output
    ensures j == if end - from < 3 then end else from + 3
    ensures output[..j] == old(output[..from]) + o[..j - from]
    ensures output[end..] == old(output[end..])
  {
    j := from;
    if j < end { output[j] := o[0]; j := j + 1; }
    if j < end { output[j] := o[1]; j := j + 1; }
    if j < end { output[j] := o[2]; j := j + 1; }
  }
}
