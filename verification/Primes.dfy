/** The first eighty primes. */
module Primes {
  import opened BlockStream

  predicate Divides(d: nat, n: nat)
    requires d > 0
  {
    n % d == 0
  }

  ghost predicate IsPrime(n: nat) {
    n >= 2 && forall d :: 2 <= d < n ==> !Divides(d, n)
  }

  /** No prime below 23 divides n, unless it is n. */
  predicate Passes(n: nat) {
    && n >= 2
    && (n == 2 || n % 2 != 0) && (n == 3 || n % 3 != 0) && (n == 5 || n % 5 != 0) && (n == 7 || n % 7 != 0)
    && (n == 11 || n % 11 != 0) && (n == 13 || n % 13 != 0) && (n == 17 || n % 17 != 0) && (n == 19 || n % 19 != 0)
  }

  /** Below 23 * 23 that is enough. */
  lemma PassesIffPrime(n: nat)
    requires n < 529
    ensures Passes(n) <==> IsPrime(n)
  {
    if IsPrime(n) {
      assert forall d :: 2 <= d < n ==> !Divides(d, n);
      PrimePasses(n);
    }
    if Passes(n) {
      forall d | 2 <= d < n ensures !Divides(d, n) {
        if n % d == 0 {
          HasSmallDivisor(n, d);
        }
      }
    }
  }

  lemma PrimePasses(n: nat)
    requires IsPrime(n)
    ensures Passes(n)
  {
    assert n > 2 ==> !Divides(2, n);
    assert n > 3 ==> !Divides(3, n);
    assert n > 5 ==> !Divides(5, n);
    assert n > 7 ==> !Divides(7, n);
    assert n > 11 ==> !Divides(11, n);
    assert n > 13 ==> !Divides(13, n);
    assert n > 17 ==> !Divides(17, n);
    assert n > 19 ==> !Divides(19, n);
  }

  lemma HasSmallDivisor(n: nat, d: nat)
    requires 2 <= d < n < 529 && n % d == 0
    ensures !Passes(n)
  {
    var e := n / d;
    assert n == d * e;
    assert e >= 2;
    if d < 23 {
      SmallDivides(n, d, e);
    } else {
      Product(d, e);
      SmallDivides(n, e, d);
    }
  }

  lemma Product(d: nat, e: nat)
    requires d >= 23 && d * e < 529
    ensures e < 23
  {
    assert d * e == 23 * e + (d - 23) * e;
    assert (d - 23) * e >= 0;
  }

  lemma Multiple(n: nat, p: nat, k: nat)
    requires n == p * k && k >= 2
    requires p == 2 || p == 3 || p == 5 || p == 7 || p == 11 || p == 13 || p == 17 || p == 19
    ensures !Passes(n)
  {
    MultipleIsWhole(p, k);
  }

  /** A divisor below 23 has a prime divisor below 23. */
  lemma SmallDivides(n: nat, q: nat, r: nat)
    requires n == q * r && 2 <= q < 23 && r >= 2
    ensures !Passes(n)
  {
    hide Passes;
    match q
    case 2 => Multiple(n, 2, r);
    case 3 => Multiple(n, 3, r);
    case 4 => Multiple(n, 2, 2 * r);
    case 5 => Multiple(n, 5, r);
    case 6 => Multiple(n, 2, 3 * r);
    case 7 => Multiple(n, 7, r);
    case 8 => Multiple(n, 2, 4 * r);
    case 9 => Multiple(n, 3, 3 * r);
    case 10 => Multiple(n, 2, 5 * r);
    case 11 => Multiple(n, 11, r);
    case 12 => Multiple(n, 2, 6 * r);
    case 13 => Multiple(n, 13, r);
    case 14 => Multiple(n, 2, 7 * r);
    case 15 => Multiple(n, 3, 5 * r);
    case 16 => Multiple(n, 2, 8 * r);
    case 17 => Multiple(n, 17, r);
    case 18 => Multiple(n, 2, 9 * r);
    case 19 => Multiple(n, 19, r);
    case 20 => Multiple(n, 2, 10 * r);
    case 21 => Multiple(n, 3, 7 * r);
    case _ => Multiple(n, 2, 11 * r);
  }

  /** q is the next prime after p. */
  ghost predicate Follows(p: nat, q: nat) {
    p < q && IsPrime(q) && forall k :: p < k < q ==> !IsPrime(k)
  }

  ghost predicate NextPasses(p: nat, q: nat) {
    p < q < 529 && Passes(q) && forall k :: p < k < q ==> !Passes(k)
  }

  lemma PassesFollows(p: nat, q: nat)
    requires NextPasses(p, q)
    ensures Follows(p, q)
  {
    hide Passes, IsPrime;
    PassesIffPrime(q);
    forall k | p < k < q ensures !IsPrime(k) {
      PassesIffPrime(k);
    }
  }

  // the first eighty primes, sixteen at a time

  function Primea(j: nat): nat
    requires j < 16
  {
    match j
    case 0 => 2 case 1 => 3 case 2 => 5 case 3 => 7
    case 4 => 11 case 5 => 13 case 6 => 17 case 7 => 19
    case 8 => 23 case 9 => 29 case 10 => 31 case 11 => 37
    case 12 => 41 case 13 => 43 case 14 => 47 case _ => 53
  }

  function Primeb(j: nat): nat
    requires j < 16
  {
    match j
    case 0 => 59 case 1 => 61 case 2 => 67 case 3 => 71
    case 4 => 73 case 5 => 79 case 6 => 83 case 7 => 89
    case 8 => 97 case 9 => 101 case 10 => 103 case 11 => 107
    case 12 => 109 case 13 => 113 case 14 => 127 case _ => 131
  }

  function Primec(j: nat): nat
    requires j < 16
  {
    match j
    case 0 => 137 case 1 => 139 case 2 => 149 case 3 => 151
    case 4 => 157 case 5 => 163 case 6 => 167 case 7 => 173
    case 8 => 179 case 9 => 181 case 10 => 191 case 11 => 193
    case 12 => 197 case 13 => 199 case 14 => 211 case _ => 223
  }

  function Primed(j: nat): nat
    requires j < 16
  {
    match j
    case 0 => 227 case 1 => 229 case 2 => 233 case 3 => 239
    case 4 => 241 case 5 => 251 case 6 => 257 case 7 => 263
    case 8 => 269 case 9 => 271 case 10 => 277 case 11 => 281
    case 12 => 283 case 13 => 293 case 14 => 307 case _ => 311
  }

  function Primee(j: nat): nat
    requires j < 16
  {
    match j
    case 0 => 313 case 1 => 317 case 2 => 331 case 3 => 337
    case 4 => 347 case 5 => 349 case 6 => 353 case 7 => 359
    case 8 => 367 case 9 => 373 case 10 => 379 case 11 => 383
    case 12 => 389 case 13 => 397 case 14 => 401 case _ => 409
  }

  function Prime(t: nat): nat {
    if t < 16 then Primea(t)
    else if t < 32 then Primeb(t - 16)
    else if t < 48 then Primec(t - 32)
    else if t < 64 then Primed(t - 48)
    else if t < 80 then Primee(t - 64)
    else 0
  }

  lemma Primes0()
    ensures Prime(0) == 2 && Prime(1) == 3 && Prime(2) == 5 && Prime(3) == 7
    ensures Prime(4) == 11 && Prime(5) == 13 && Prime(6) == 17 && Prime(7) == 19
    ensures Prime(8) == 23 && Prime(9) == 29 && Prime(10) == 31 && Prime(11) == 37
    ensures Prime(12) == 41 && Prime(13) == 43 && Prime(14) == 47 && Prime(15) == 53
  {}

  lemma Primes1()
    ensures Prime(16) == 59 && Prime(17) == 61 && Prime(18) == 67 && Prime(19) == 71
    ensures Prime(20) == 73 && Prime(21) == 79 && Prime(22) == 83 && Prime(23) == 89
    ensures Prime(24) == 97 && Prime(25) == 101 && Prime(26) == 103 && Prime(27) == 107
    ensures Prime(28) == 109 && Prime(29) == 113 && Prime(30) == 127 && Prime(31) == 131
  {}

  lemma Primes2()
    ensures Prime(32) == 137 && Prime(33) == 139 && Prime(34) == 149 && Prime(35) == 151
    ensures Prime(36) == 157 && Prime(37) == 163 && Prime(38) == 167 && Prime(39) == 173
    ensures Prime(40) == 179 && Prime(41) == 181 && Prime(42) == 191 && Prime(43) == 193
    ensures Prime(44) == 197 && Prime(45) == 199 && Prime(46) == 211 && Prime(47) == 223
  {}

  lemma Primes3()
    ensures Prime(48) == 227 && Prime(49) == 229 && Prime(50) == 233 && Prime(51) == 239
    ensures Prime(52) == 241 && Prime(53) == 251 && Prime(54) == 257 && Prime(55) == 263
    ensures Prime(56) == 269 && Prime(57) == 271 && Prime(58) == 277 && Prime(59) == 281
    ensures Prime(60) == 283 && Prime(61) == 293 && Prime(62) == 307 && Prime(63) == 311
  {}

  lemma Primes4()
    ensures Prime(64) == 313 && Prime(65) == 317 && Prime(66) == 331 && Prime(67) == 337
    ensures Prime(68) == 347 && Prime(69) == 349 && Prime(70) == 353 && Prime(71) == 359
    ensures Prime(72) == 367 && Prime(73) == 373 && Prime(74) == 379 && Prime(75) == 383
    ensures Prime(76) == 389 && Prime(77) == 397 && Prime(78) == 401 && Prime(79) == 409
  {}

  lemma EvenFails(k: nat)
    requires k > 2 && k % 2 == 0
    ensures !Passes(k)
  {}

  // an odd number and the next that passes, by their distance

  lemma Gap2(p: nat)
    requires 2 < p < 527 && p % 2 == 1 && Passes(p + 2)
    ensures Follows(p, p + 2)
  {
    hide Passes, Follows;
    forall k | p < k < p + 2 ensures !Passes(k) {
      if k % 2 == 0 {
        EvenFails(k);
      }
    }
    PassesFollows(p, p + 2);
  }

  lemma Gap4(p: nat)
    requires 2 < p < 525 && p % 2 == 1 && !Passes(p + 2) && Passes(p + 4)
    ensures Follows(p, p + 4)
  {
    hide Passes, Follows;
    forall k | p < k < p + 4 ensures !Passes(k) {
      if k % 2 == 0 {
        EvenFails(k);
      }
    }
    PassesFollows(p, p + 4);
  }

  lemma Gap6(p: nat)
    requires 2 < p < 523 && p % 2 == 1 && !Passes(p + 2) && !Passes(p + 4) && Passes(p + 6)
    ensures Follows(p, p + 6)
  {
    hide Passes, Follows;
    forall k | p < k < p + 6 ensures !Passes(k) {
      if k % 2 == 0 {
        EvenFails(k);
      }
    }
    PassesFollows(p, p + 6);
  }

  lemma Gap8(p: nat)
    requires 2 < p < 521 && p % 2 == 1 && !Passes(p + 2) && !Passes(p + 4) && !Passes(p + 6) && Passes(p + 8)
    ensures Follows(p, p + 8)
  {
    hide Passes, Follows;
    forall k | p < k < p + 8 ensures !Passes(k) {
      if k % 2 == 0 {
        EvenFails(k);
      }
    }
    PassesFollows(p, p + 8);
  }

  lemma Gap10(p: nat)
    requires 2 < p < 519 && p % 2 == 1 && !Passes(p + 2) && !Passes(p + 4) && !Passes(p + 6)
            && !Passes(p + 8) && Passes(p + 10)
    ensures Follows(p, p + 10)
  {
    hide Passes, Follows;
    forall k | p < k < p + 10 ensures !Passes(k) {
      if k % 2 == 0 {
        EvenFails(k);
      }
    }
    PassesFollows(p, p + 10);
  }

  lemma Gap12(p: nat)
    requires 2 < p < 517 && p % 2 == 1 && !Passes(p + 2) && !Passes(p + 4) && !Passes(p + 6)
            && !Passes(p + 8) && !Passes(p + 10) && Passes(p + 12)
    ensures Follows(p, p + 12)
  {
    hide Passes, Follows;
    forall k | p < k < p + 12 ensures !Passes(k) {
      if k % 2 == 0 {
        EvenFails(k);
      }
    }
    PassesFollows(p, p + 12);
  }

  lemma Gap14(p: nat)
    requires 2 < p < 515 && p % 2 == 1 && !Passes(p + 2) && !Passes(p + 4) && !Passes(p + 6)
            && !Passes(p + 8) && !Passes(p + 10) && !Passes(p + 12) && Passes(p + 14)
    ensures Follows(p, p + 14)
  {
    hide Passes, Follows;
    forall k | p < k < p + 14 ensures !Passes(k) {
      if k % 2 == 0 {
        EvenFails(k);
      }
    }
    PassesFollows(p, p + 14);
  }

  /** The table holds primes, each the next after the one before it, from 2 on. */
  lemma PrimesInOrder(t: nat)
    requires t < 80
    ensures IsPrime(Prime(t)) && if t == 0 then Prime(t) == 2 else Follows(Prime(t - 1), Prime(t))
  {
    hide Follows, IsPrime, Prime;
    assert IsPrime(2) by { TwoIsPrime(); }
    if t < 8 { Order0(t); } else if t < 16 { Order1(t); } else if t < 24 { Order2(t); } else
    if t < 32 { Order3(t); } else if t < 40 { Order4(t); } else if t < 48 { Order5(t); } else
    if t < 56 { Order6(t); } else if t < 64 { Order7(t); } else if t < 72 { Order8(t); } else
    { Order9(t); }
  }

  lemma TwoIsPrime()
    ensures IsPrime(2)
  {}

  lemma FollowsIsPrime(p: nat, q: nat)
    requires Follows(p, q)
    ensures IsPrime(q)
  {}

  lemma TwoThree()
    ensures Follows(2, 3)
  {
    PassesIffPrime(3);
  }

  lemma Order0(t: nat)
    requires 0 <= t < 8
    ensures IsPrime(Prime(t)) && if t == 0 then Prime(t) == 2 else Follows(Prime(t - 1), Prime(t))
  {
    hide Follows, IsPrime, Prime;
    Primes0();
    match t
    case 0 => TwoIsPrime();
    case 1 => TwoThree(); FollowsIsPrime(2, 3);
    case 2 => Gap2(3); FollowsIsPrime(3, 5);
    case 3 => Gap2(5); FollowsIsPrime(5, 7);
    case 4 => Gap4(7); FollowsIsPrime(7, 11);
    case 5 => Gap2(11); FollowsIsPrime(11, 13);
    case 6 => Gap4(13); FollowsIsPrime(13, 17);
    case _ => Gap2(17); FollowsIsPrime(17, 19);
  }

  lemma Order1(t: nat)
    requires 8 <= t < 16
    ensures IsPrime(Prime(t)) && Follows(Prime(t - 1), Prime(t))
  {
    hide Follows, IsPrime, Prime;
    Primes0();
    match t
    case 8 => Gap4(19); FollowsIsPrime(19, 23);
    case 9 => Gap6(23); FollowsIsPrime(23, 29);
    case 10 => Gap2(29); FollowsIsPrime(29, 31);
    case 11 => Gap6(31); FollowsIsPrime(31, 37);
    case 12 => Gap4(37); FollowsIsPrime(37, 41);
    case 13 => Gap2(41); FollowsIsPrime(41, 43);
    case 14 => Gap4(43); FollowsIsPrime(43, 47);
    case _ => Gap6(47); FollowsIsPrime(47, 53);
  }

  lemma Order2(t: nat)
    requires 16 <= t < 24
    ensures IsPrime(Prime(t)) && Follows(Prime(t - 1), Prime(t))
  {
    hide Follows, IsPrime, Prime;
    Primes1();
    Primes0();
    match t
    case 16 => Gap6(53); FollowsIsPrime(53, 59);
    case 17 => Gap2(59); FollowsIsPrime(59, 61);
    case 18 => Gap6(61); FollowsIsPrime(61, 67);
    case 19 => Gap4(67); FollowsIsPrime(67, 71);
    case 20 => Gap2(71); FollowsIsPrime(71, 73);
    case 21 => Gap6(73); FollowsIsPrime(73, 79);
    case 22 => Gap4(79); FollowsIsPrime(79, 83);
    case _ => Gap6(83); FollowsIsPrime(83, 89);
  }

  lemma Order3(t: nat)
    requires 24 <= t < 32
    ensures IsPrime(Prime(t)) && Follows(Prime(t - 1), Prime(t))
  {
    hide Follows, IsPrime, Prime;
    Primes1();
    match t
    case 24 => Gap8(89); FollowsIsPrime(89, 97);
    case 25 => Gap4(97); FollowsIsPrime(97, 101);
    case 26 => Gap2(101); FollowsIsPrime(101, 103);
    case 27 => Gap4(103); FollowsIsPrime(103, 107);
    case 28 => Gap2(107); FollowsIsPrime(107, 109);
    case 29 => Gap4(109); FollowsIsPrime(109, 113);
    case 30 => Gap14(113); FollowsIsPrime(113, 127);
    case _ => Gap4(127); FollowsIsPrime(127, 131);
  }

  lemma Order4(t: nat)
    requires 32 <= t < 40
    ensures IsPrime(Prime(t)) && Follows(Prime(t - 1), Prime(t))
  {
    hide Follows, IsPrime, Prime;
    Primes2();
    Primes1();
    match t
    case 32 => Gap6(131); FollowsIsPrime(131, 137);
    case 33 => Gap2(137); FollowsIsPrime(137, 139);
    case 34 => Gap10(139); FollowsIsPrime(139, 149);
    case 35 => Gap2(149); FollowsIsPrime(149, 151);
    case 36 => Gap6(151); FollowsIsPrime(151, 157);
    case 37 => Gap6(157); FollowsIsPrime(157, 163);
    case 38 => Gap4(163); FollowsIsPrime(163, 167);
    case _ => Gap6(167); FollowsIsPrime(167, 173);
  }

  lemma Order5(t: nat)
    requires 40 <= t < 48
    ensures IsPrime(Prime(t)) && Follows(Prime(t - 1), Prime(t))
  {
    hide Follows, IsPrime, Prime;
    Primes2();
    match t
    case 40 => Gap6(173); FollowsIsPrime(173, 179);
    case 41 => Gap2(179); FollowsIsPrime(179, 181);
    case 42 => Gap10(181); FollowsIsPrime(181, 191);
    case 43 => Gap2(191); FollowsIsPrime(191, 193);
    case 44 => Gap4(193); FollowsIsPrime(193, 197);
    case 45 => Gap2(197); FollowsIsPrime(197, 199);
    case 46 => Gap12(199); FollowsIsPrime(199, 211);
    case _ => Gap12(211); FollowsIsPrime(211, 223);
  }

  lemma Order6(t: nat)
    requires 48 <= t < 56
    ensures IsPrime(Prime(t)) && Follows(Prime(t - 1), Prime(t))
  {
    hide Follows, IsPrime, Prime;
    Primes3();
    Primes2();
    match t
    case 48 => Gap4(223); FollowsIsPrime(223, 227);
    case 49 => Gap2(227); FollowsIsPrime(227, 229);
    case 50 => Gap4(229); FollowsIsPrime(229, 233);
    case 51 => Gap6(233); FollowsIsPrime(233, 239);
    case 52 => Gap2(239); FollowsIsPrime(239, 241);
    case 53 => Gap10(241); FollowsIsPrime(241, 251);
    case 54 => Gap6(251); FollowsIsPrime(251, 257);
    case _ => Gap6(257); FollowsIsPrime(257, 263);
  }

  lemma Order7(t: nat)
    requires 56 <= t < 64
    ensures IsPrime(Prime(t)) && Follows(Prime(t - 1), Prime(t))
  {
    hide Follows, IsPrime, Prime;
    Primes3();
    match t
    case 56 => Gap6(263); FollowsIsPrime(263, 269);
    case 57 => Gap2(269); FollowsIsPrime(269, 271);
    case 58 => Gap6(271); FollowsIsPrime(271, 277);
    case 59 => Gap4(277); FollowsIsPrime(277, 281);
    case 60 => Gap2(281); FollowsIsPrime(281, 283);
    case 61 => Gap10(283); FollowsIsPrime(283, 293);
    case 62 => Gap14(293); FollowsIsPrime(293, 307);
    case _ => Gap4(307); FollowsIsPrime(307, 311);
  }

  lemma Order8(t: nat)
    requires 64 <= t < 72
    ensures IsPrime(Prime(t)) && Follows(Prime(t - 1), Prime(t))
  {
    hide Follows, IsPrime, Prime;
    Primes4();
    Primes3();
    match t
    case 64 => Gap2(311); FollowsIsPrime(311, 313);
    case 65 => Gap4(313); FollowsIsPrime(313, 317);
    case 66 => Gap14(317); FollowsIsPrime(317, 331);
    case 67 => Gap6(331); FollowsIsPrime(331, 337);
    case 68 => Gap10(337); FollowsIsPrime(337, 347);
    case 69 => Gap2(347); FollowsIsPrime(347, 349);
    case 70 => Gap4(349); FollowsIsPrime(349, 353);
    case _ => Gap6(353); FollowsIsPrime(353, 359);
  }

  lemma Order9(t: nat)
    requires 72 <= t < 80
    ensures IsPrime(Prime(t)) && Follows(Prime(t - 1), Prime(t))
  {
    hide Follows, IsPrime, Prime;
    Primes4();
    match t
    case 72 => Gap8(359); FollowsIsPrime(359, 367);
    case 73 => Gap6(367); FollowsIsPrime(367, 373);
    case 74 => Gap6(373); FollowsIsPrime(373, 379);
    case 75 => Gap4(379); FollowsIsPrime(379, 383);
    case 76 => Gap6(383); FollowsIsPrime(383, 389);
    case 77 => Gap8(389); FollowsIsPrime(389, 397);
    case 78 => Gap4(397); FollowsIsPrime(397, 401);
    case _ => Gap8(401); FollowsIsPrime(401, 409);
  }
}
