/**
  The constants of sha2.c as the roots of primes that sections 4.2 and 5.3 of FIPS 180-4 take
  them from.
 */
module Sha2Roots {
  import opened Primes
  import opened Sha2Spec
  import opened Sha2Words
  import opened Widths

  function CubeFloor(p: nat): nat {
    if p < 8 then 1 else if p < 27 then 2 else if p < 64 then 3 else if p < 125 then 4
    else if p < 216 then 5 else if p < 343 then 6 else 7
  }

  /** k / w is the fractional part of the cube root of p, cut off. */
  predicate CubeRoot(p: nat, k: int, w: nat) {
    var a := CubeFloor(p);
    var x := a * w + k;
    && a * a * a <= p < (a + 1) * (a + 1) * (a + 1)
    && 0 <= k < w && x * x * x <= p * w * w * w < (x + 1) * (x + 1) * (x + 1)
  }

  function SquareFloor(p: nat): nat {
    if p < 4 then 1 else if p < 9 then 2 else if p < 16 then 3 else if p < 25 then 4
    else if p < 36 then 5 else if p < 49 then 6 else 7
  }

  /** k / w is the fractional part of the square root of p, cut off. */
  predicate SquareRoot(p: nat, k: int, w: nat) {
    var a := SquareFloor(p);
    var x := a * w + k;
    && a * a <= p < (a + 1) * (a + 1)
    && 0 <= k < w && x * x <= p * w * w < (x + 1) * (x + 1)
  }

  lemma Roots256Part0()
    ensures CubeRoot(2, RoundConstant256(0) as int, TWO32)
    ensures CubeRoot(3, RoundConstant256(1) as int, TWO32)
    ensures CubeRoot(5, RoundConstant256(2) as int, TWO32)
    ensures CubeRoot(7, RoundConstant256(3) as int, TWO32)
  {}

  lemma Roots256Part1()
    ensures CubeRoot(11, RoundConstant256(4) as int, TWO32)
    ensures CubeRoot(13, RoundConstant256(5) as int, TWO32)
    ensures CubeRoot(17, RoundConstant256(6) as int, TWO32)
    ensures CubeRoot(19, RoundConstant256(7) as int, TWO32)
  {}

  lemma Roots256Part2()
    ensures CubeRoot(23, RoundConstant256(8) as int, TWO32)
    ensures CubeRoot(29, RoundConstant256(9) as int, TWO32)
    ensures CubeRoot(31, RoundConstant256(10) as int, TWO32)
    ensures CubeRoot(37, RoundConstant256(11) as int, TWO32)
  {}

  lemma Roots256Part3()
    ensures CubeRoot(41, RoundConstant256(12) as int, TWO32)
    ensures CubeRoot(43, RoundConstant256(13) as int, TWO32)
    ensures CubeRoot(47, RoundConstant256(14) as int, TWO32)
    ensures CubeRoot(53, RoundConstant256(15) as int, TWO32)
  {}

  lemma Roots256Part4()
    ensures CubeRoot(59, RoundConstant256(16) as int, TWO32)
    ensures CubeRoot(61, RoundConstant256(17) as int, TWO32)
    ensures CubeRoot(67, RoundConstant256(18) as int, TWO32)
    ensures CubeRoot(71, RoundConstant256(19) as int, TWO32)
  {}

  lemma Roots256Part5()
    ensures CubeRoot(73, RoundConstant256(20) as int, TWO32)
    ensures CubeRoot(79, RoundConstant256(21) as int, TWO32)
    ensures CubeRoot(83, RoundConstant256(22) as int, TWO32)
    ensures CubeRoot(89, RoundConstant256(23) as int, TWO32)
  {}

  lemma Roots256Part6()
    ensures CubeRoot(97, RoundConstant256(24) as int, TWO32)
    ensures CubeRoot(101, RoundConstant256(25) as int, TWO32)
    ensures CubeRoot(103, RoundConstant256(26) as int, TWO32)
    ensures CubeRoot(107, RoundConstant256(27) as int, TWO32)
  {}

  lemma Roots256Part7()
    ensures CubeRoot(109, RoundConstant256(28) as int, TWO32)
    ensures CubeRoot(113, RoundConstant256(29) as int, TWO32)
    ensures CubeRoot(127, RoundConstant256(30) as int, TWO32)
    ensures CubeRoot(131, RoundConstant256(31) as int, TWO32)
  {}

  lemma Roots256Part8()
    ensures CubeRoot(137, RoundConstant256(32) as int, TWO32)
    ensures CubeRoot(139, RoundConstant256(33) as int, TWO32)
    ensures CubeRoot(149, RoundConstant256(34) as int, TWO32)
    ensures CubeRoot(151, RoundConstant256(35) as int, TWO32)
  {}

  lemma Roots256Part9()
    ensures CubeRoot(157, RoundConstant256(36) as int, TWO32)
    ensures CubeRoot(163, RoundConstant256(37) as int, TWO32)
    ensures CubeRoot(167, RoundConstant256(38) as int, TWO32)
    ensures CubeRoot(173, RoundConstant256(39) as int, TWO32)
  {}

  lemma Roots256Part10()
    ensures CubeRoot(179, RoundConstant256(40) as int, TWO32)
    ensures CubeRoot(181, RoundConstant256(41) as int, TWO32)
    ensures CubeRoot(191, RoundConstant256(42) as int, TWO32)
    ensures CubeRoot(193, RoundConstant256(43) as int, TWO32)
  {}

  lemma Roots256Part11()
    ensures CubeRoot(197, RoundConstant256(44) as int, TWO32)
    ensures CubeRoot(199, RoundConstant256(45) as int, TWO32)
    ensures CubeRoot(211, RoundConstant256(46) as int, TWO32)
    ensures CubeRoot(223, RoundConstant256(47) as int, TWO32)
  {}

  lemma Roots256Part12()
    ensures CubeRoot(227, RoundConstant256(48) as int, TWO32)
    ensures CubeRoot(229, RoundConstant256(49) as int, TWO32)
    ensures CubeRoot(233, RoundConstant256(50) as int, TWO32)
    ensures CubeRoot(239, RoundConstant256(51) as int, TWO32)
  {}

  lemma Roots256Part13()
    ensures CubeRoot(241, RoundConstant256(52) as int, TWO32)
    ensures CubeRoot(251, RoundConstant256(53) as int, TWO32)
    ensures CubeRoot(257, RoundConstant256(54) as int, TWO32)
    ensures CubeRoot(263, RoundConstant256(55) as int, TWO32)
  {}

  lemma Roots256Part14()
    ensures CubeRoot(269, RoundConstant256(56) as int, TWO32)
    ensures CubeRoot(271, RoundConstant256(57) as int, TWO32)
    ensures CubeRoot(277, RoundConstant256(58) as int, TWO32)
    ensures CubeRoot(281, RoundConstant256(59) as int, TWO32)
  {}

  lemma Roots256Part15()
    ensures CubeRoot(283, RoundConstant256(60) as int, TWO32)
    ensures CubeRoot(293, RoundConstant256(61) as int, TWO32)
    ensures CubeRoot(307, RoundConstant256(62) as int, TWO32)
    ensures CubeRoot(311, RoundConstant256(63) as int, TWO32)
  {}

  /** Constant t is the first 32 bits of the fractional part of the cube root of prime t. */
  lemma ConstantsAreRoots256(t: nat)
    requires t < 64
    ensures CubeRoot(Prime(t), Algebra256().k(t) as int, TWO32)
  {
    hide CubeRoot, RoundConstant256, Prime;
    RootAt256(t);
  }

  lemma RootAt256(t: nat)
    requires t < 64
    ensures CubeRoot(Prime(t), RoundConstant256(t) as int, TWO32)
  {
    hide CubeRoot, RoundConstant256, Prime;
    if t < 8 { Root256In0(t); } else if t < 16 { Root256In1(t); } else if t < 24 { Root256In2(t); } else
    if t < 32 { Root256In3(t); } else if t < 40 { Root256In4(t); } else if t < 48 { Root256In5(t); } else
    if t < 56 { Root256In6(t); } else { Root256In7(t); }
  }

  lemma Root256In0(t: nat)
    requires 0 <= t < 8
    ensures CubeRoot(Prime(t), RoundConstant256(t) as int, TWO32)
  {
    hide CubeRoot, RoundConstant256, Prime;
    Primes0();
    Roots256Part0();
    Roots256Part1();
    match t
    case 0 => assert CubeRoot(Prime(0), RoundConstant256(0) as int, TWO32);
    case 1 => assert CubeRoot(Prime(1), RoundConstant256(1) as int, TWO32);
    case 2 => assert CubeRoot(Prime(2), RoundConstant256(2) as int, TWO32);
    case 3 => assert CubeRoot(Prime(3), RoundConstant256(3) as int, TWO32);
    case 4 => assert CubeRoot(Prime(4), RoundConstant256(4) as int, TWO32);
    case 5 => assert CubeRoot(Prime(5), RoundConstant256(5) as int, TWO32);
    case 6 => assert CubeRoot(Prime(6), RoundConstant256(6) as int, TWO32);
    case _ => assert CubeRoot(Prime(7), RoundConstant256(7) as int, TWO32);
  }

  lemma Root256In1(t: nat)
    requires 8 <= t < 16
    ensures CubeRoot(Prime(t), RoundConstant256(t) as int, TWO32)
  {
    hide CubeRoot, RoundConstant256, Prime;
    Primes0();
    Roots256Part2();
    Roots256Part3();
    match t
    case 8 => assert CubeRoot(Prime(8), RoundConstant256(8) as int, TWO32);
    case 9 => assert CubeRoot(Prime(9), RoundConstant256(9) as int, TWO32);
    case 10 => assert CubeRoot(Prime(10), RoundConstant256(10) as int, TWO32);
    case 11 => assert CubeRoot(Prime(11), RoundConstant256(11) as int, TWO32);
    case 12 => assert CubeRoot(Prime(12), RoundConstant256(12) as int, TWO32);
    case 13 => assert CubeRoot(Prime(13), RoundConstant256(13) as int, TWO32);
    case 14 => assert CubeRoot(Prime(14), RoundConstant256(14) as int, TWO32);
    case _ => assert CubeRoot(Prime(15), RoundConstant256(15) as int, TWO32);
  }

  lemma Root256In2(t: nat)
    requires 16 <= t < 24
    ensures CubeRoot(Prime(t), RoundConstant256(t) as int, TWO32)
  {
    hide CubeRoot, RoundConstant256, Prime;
    Primes1();
    Roots256Part4();
    Roots256Part5();
    match t
    case 16 => assert CubeRoot(Prime(16), RoundConstant256(16) as int, TWO32);
    case 17 => assert CubeRoot(Prime(17), RoundConstant256(17) as int, TWO32);
    case 18 => assert CubeRoot(Prime(18), RoundConstant256(18) as int, TWO32);
    case 19 => assert CubeRoot(Prime(19), RoundConstant256(19) as int, TWO32);
    case 20 => assert CubeRoot(Prime(20), RoundConstant256(20) as int, TWO32);
    case 21 => assert CubeRoot(Prime(21), RoundConstant256(21) as int, TWO32);
    case 22 => assert CubeRoot(Prime(22), RoundConstant256(22) as int, TWO32);
    case _ => assert CubeRoot(Prime(23), RoundConstant256(23) as int, TWO32);
  }

  lemma Root256In3(t: nat)
    requires 24 <= t < 32
    ensures CubeRoot(Prime(t), RoundConstant256(t) as int, TWO32)
  {
    hide CubeRoot, RoundConstant256, Prime;
    Primes1();
    Roots256Part6();
    Roots256Part7();
    match t
    case 24 => assert CubeRoot(Prime(24), RoundConstant256(24) as int, TWO32);
    case 25 => assert CubeRoot(Prime(25), RoundConstant256(25) as int, TWO32);
    case 26 => assert CubeRoot(Prime(26), RoundConstant256(26) as int, TWO32);
    case 27 => assert CubeRoot(Prime(27), RoundConstant256(27) as int, TWO32);
    case 28 => assert CubeRoot(Prime(28), RoundConstant256(28) as int, TWO32);
    case 29 => assert CubeRoot(Prime(29), RoundConstant256(29) as int, TWO32);
    case 30 => assert CubeRoot(Prime(30), RoundConstant256(30) as int, TWO32);
    case _ => assert CubeRoot(Prime(31), RoundConstant256(31) as int, TWO32);
  }

  lemma Root256In4(t: nat)
    requires 32 <= t < 40
    ensures CubeRoot(Prime(t), RoundConstant256(t) as int, TWO32)
  {
    hide CubeRoot, RoundConstant256, Prime;
    Primes2();
    Roots256Part8();
    Roots256Part9();
    match t
    case 32 => assert CubeRoot(Prime(32), RoundConstant256(32) as int, TWO32);
    case 33 => assert CubeRoot(Prime(33), RoundConstant256(33) as int, TWO32);
    case 34 => assert CubeRoot(Prime(34), RoundConstant256(34) as int, TWO32);
    case 35 => assert CubeRoot(Prime(35), RoundConstant256(35) as int, TWO32);
    case 36 => assert CubeRoot(Prime(36), RoundConstant256(36) as int, TWO32);
    case 37 => assert CubeRoot(Prime(37), RoundConstant256(37) as int, TWO32);
    case 38 => assert CubeRoot(Prime(38), RoundConstant256(38) as int, TWO32);
    case _ => assert CubeRoot(Prime(39), RoundConstant256(39) as int, TWO32);
  }

  lemma Root256In5(t: nat)
    requires 40 <= t < 48
    ensures CubeRoot(Prime(t), RoundConstant256(t) as int, TWO32)
  {
    hide CubeRoot, RoundConstant256, Prime;
    Primes2();
    Roots256Part10();
    Roots256Part11();
    match t
    case 40 => assert CubeRoot(Prime(40), RoundConstant256(40) as int, TWO32);
    case 41 => assert CubeRoot(Prime(41), RoundConstant256(41) as int, TWO32);
    case 42 => assert CubeRoot(Prime(42), RoundConstant256(42) as int, TWO32);
    case 43 => assert CubeRoot(Prime(43), RoundConstant256(43) as int, TWO32);
    case 44 => assert CubeRoot(Prime(44), RoundConstant256(44) as int, TWO32);
    case 45 => assert CubeRoot(Prime(45), RoundConstant256(45) as int, TWO32);
    case 46 => assert CubeRoot(Prime(46), RoundConstant256(46) as int, TWO32);
    case _ => assert CubeRoot(Prime(47), RoundConstant256(47) as int, TWO32);
  }

  lemma Root256In6(t: nat)
    requires 48 <= t < 56
    ensures CubeRoot(Prime(t), RoundConstant256(t) as int, TWO32)
  {
    hide CubeRoot, RoundConstant256, Prime;
    Primes3();
    Roots256Part12();
    Roots256Part13();
    match t
    case 48 => assert CubeRoot(Prime(48), RoundConstant256(48) as int, TWO32);
    case 49 => assert CubeRoot(Prime(49), RoundConstant256(49) as int, TWO32);
    case 50 => assert CubeRoot(Prime(50), RoundConstant256(50) as int, TWO32);
    case 51 => assert CubeRoot(Prime(51), RoundConstant256(51) as int, TWO32);
    case 52 => assert CubeRoot(Prime(52), RoundConstant256(52) as int, TWO32);
    case 53 => assert CubeRoot(Prime(53), RoundConstant256(53) as int, TWO32);
    case 54 => assert CubeRoot(Prime(54), RoundConstant256(54) as int, TWO32);
    case _ => assert CubeRoot(Prime(55), RoundConstant256(55) as int, TWO32);
  }

  lemma Root256In7(t: nat)
    requires 56 <= t < 64
    ensures CubeRoot(Prime(t), RoundConstant256(t) as int, TWO32)
  {
    hide CubeRoot, RoundConstant256, Prime;
    Primes3();
    Roots256Part14();
    Roots256Part15();
    match t
    case 56 => assert CubeRoot(Prime(56), RoundConstant256(56) as int, TWO32);
    case 57 => assert CubeRoot(Prime(57), RoundConstant256(57) as int, TWO32);
    case 58 => assert CubeRoot(Prime(58), RoundConstant256(58) as int, TWO32);
    case 59 => assert CubeRoot(Prime(59), RoundConstant256(59) as int, TWO32);
    case 60 => assert CubeRoot(Prime(60), RoundConstant256(60) as int, TWO32);
    case 61 => assert CubeRoot(Prime(61), RoundConstant256(61) as int, TWO32);
    case 62 => assert CubeRoot(Prime(62), RoundConstant256(62) as int, TWO32);
    case _ => assert CubeRoot(Prime(63), RoundConstant256(63) as int, TWO32);
  }

  lemma Roots512Part0()
    ensures CubeRoot(2, RoundConstant512(0) as int, TWO64)
    ensures CubeRoot(3, RoundConstant512(1) as int, TWO64)
    ensures CubeRoot(5, RoundConstant512(2) as int, TWO64)
    ensures CubeRoot(7, RoundConstant512(3) as int, TWO64)
  {}

  lemma Roots512Part1()
    ensures CubeRoot(11, RoundConstant512(4) as int, TWO64)
    ensures CubeRoot(13, RoundConstant512(5) as int, TWO64)
    ensures CubeRoot(17, RoundConstant512(6) as int, TWO64)
    ensures CubeRoot(19, RoundConstant512(7) as int, TWO64)
  {}

  lemma Roots512Part2()
    ensures CubeRoot(23, RoundConstant512(8) as int, TWO64)
    ensures CubeRoot(29, RoundConstant512(9) as int, TWO64)
    ensures CubeRoot(31, RoundConstant512(10) as int, TWO64)
    ensures CubeRoot(37, RoundConstant512(11) as int, TWO64)
  {}

  lemma Roots512Part3()
    ensures CubeRoot(41, RoundConstant512(12) as int, TWO64)
    ensures CubeRoot(43, RoundConstant512(13) as int, TWO64)
    ensures CubeRoot(47, RoundConstant512(14) as int, TWO64)
    ensures CubeRoot(53, RoundConstant512(15) as int, TWO64)
  {}

  lemma Roots512Part4()
    ensures CubeRoot(59, RoundConstant512(16) as int, TWO64)
    ensures CubeRoot(61, RoundConstant512(17) as int, TWO64)
    ensures CubeRoot(67, RoundConstant512(18) as int, TWO64)
    ensures CubeRoot(71, RoundConstant512(19) as int, TWO64)
  {}

  lemma Roots512Part5()
    ensures CubeRoot(73, RoundConstant512(20) as int, TWO64)
    ensures CubeRoot(79, RoundConstant512(21) as int, TWO64)
    ensures CubeRoot(83, RoundConstant512(22) as int, TWO64)
    ensures CubeRoot(89, RoundConstant512(23) as int, TWO64)
  {}

  lemma Roots512Part6()
    ensures CubeRoot(97, RoundConstant512(24) as int, TWO64)
    ensures CubeRoot(101, RoundConstant512(25) as int, TWO64)
    ensures CubeRoot(103, RoundConstant512(26) as int, TWO64)
    ensures CubeRoot(107, RoundConstant512(27) as int, TWO64)
  {}

  lemma Roots512Part7()
    ensures CubeRoot(109, RoundConstant512(28) as int, TWO64)
    ensures CubeRoot(113, RoundConstant512(29) as int, TWO64)
    ensures CubeRoot(127, RoundConstant512(30) as int, TWO64)
    ensures CubeRoot(131, RoundConstant512(31) as int, TWO64)
  {}

  lemma Roots512Part8()
    ensures CubeRoot(137, RoundConstant512(32) as int, TWO64)
    ensures CubeRoot(139, RoundConstant512(33) as int, TWO64)
    ensures CubeRoot(149, RoundConstant512(34) as int, TWO64)
    ensures CubeRoot(151, RoundConstant512(35) as int, TWO64)
  {}

  lemma Roots512Part9()
    ensures CubeRoot(157, RoundConstant512(36) as int, TWO64)
    ensures CubeRoot(163, RoundConstant512(37) as int, TWO64)
    ensures CubeRoot(167, RoundConstant512(38) as int, TWO64)
    ensures CubeRoot(173, RoundConstant512(39) as int, TWO64)
  {}

  lemma Roots512Part10()
    ensures CubeRoot(179, RoundConstant512(40) as int, TWO64)
    ensures CubeRoot(181, RoundConstant512(41) as int, TWO64)
    ensures CubeRoot(191, RoundConstant512(42) as int, TWO64)
    ensures CubeRoot(193, RoundConstant512(43) as int, TWO64)
  {}

  lemma Roots512Part11()
    ensures CubeRoot(197, RoundConstant512(44) as int, TWO64)
    ensures CubeRoot(199, RoundConstant512(45) as int, TWO64)
    ensures CubeRoot(211, RoundConstant512(46) as int, TWO64)
    ensures CubeRoot(223, RoundConstant512(47) as int, TWO64)
  {}

  lemma Roots512Part12()
    ensures CubeRoot(227, RoundConstant512(48) as int, TWO64)
    ensures CubeRoot(229, RoundConstant512(49) as int, TWO64)
    ensures CubeRoot(233, RoundConstant512(50) as int, TWO64)
    ensures CubeRoot(239, RoundConstant512(51) as int, TWO64)
  {}

  lemma Roots512Part13()
    ensures CubeRoot(241, RoundConstant512(52) as int, TWO64)
    ensures CubeRoot(251, RoundConstant512(53) as int, TWO64)
    ensures CubeRoot(257, RoundConstant512(54) as int, TWO64)
    ensures CubeRoot(263, RoundConstant512(55) as int, TWO64)
  {}

  lemma Roots512Part14()
    ensures CubeRoot(269, RoundConstant512(56) as int, TWO64)
    ensures CubeRoot(271, RoundConstant512(57) as int, TWO64)
    ensures CubeRoot(277, RoundConstant512(58) as int, TWO64)
    ensures CubeRoot(281, RoundConstant512(59) as int, TWO64)
  {}

  lemma Roots512Part15()
    ensures CubeRoot(283, RoundConstant512(60) as int, TWO64)
    ensures CubeRoot(293, RoundConstant512(61) as int, TWO64)
    ensures CubeRoot(307, RoundConstant512(62) as int, TWO64)
    ensures CubeRoot(311, RoundConstant512(63) as int, TWO64)
  {}

  lemma Roots512Part16()
    ensures CubeRoot(313, RoundConstant512(64) as int, TWO64)
    ensures CubeRoot(317, RoundConstant512(65) as int, TWO64)
    ensures CubeRoot(331, RoundConstant512(66) as int, TWO64)
    ensures CubeRoot(337, RoundConstant512(67) as int, TWO64)
  {}

  lemma Roots512Part17()
    ensures CubeRoot(347, RoundConstant512(68) as int, TWO64)
    ensures CubeRoot(349, RoundConstant512(69) as int, TWO64)
    ensures CubeRoot(353, RoundConstant512(70) as int, TWO64)
    ensures CubeRoot(359, RoundConstant512(71) as int, TWO64)
  {}

  lemma Roots512Part18()
    ensures CubeRoot(367, RoundConstant512(72) as int, TWO64)
    ensures CubeRoot(373, RoundConstant512(73) as int, TWO64)
    ensures CubeRoot(379, RoundConstant512(74) as int, TWO64)
    ensures CubeRoot(383, RoundConstant512(75) as int, TWO64)
  {}

  lemma Roots512Part19()
    ensures CubeRoot(389, RoundConstant512(76) as int, TWO64)
    ensures CubeRoot(397, RoundConstant512(77) as int, TWO64)
    ensures CubeRoot(401, RoundConstant512(78) as int, TWO64)
    ensures CubeRoot(409, RoundConstant512(79) as int, TWO64)
  {}

  /** Constant t is the first 64 bits of the fractional part of the cube root of prime t. */
  lemma ConstantsAreRoots512(t: nat)
    requires t < 80
    ensures CubeRoot(Prime(t), Algebra512().k(t) as int, TWO64)
  {
    hide CubeRoot, RoundConstant512, Prime;
    RootAt512(t);
  }

  lemma RootAt512(t: nat)
    requires t < 80
    ensures CubeRoot(Prime(t), RoundConstant512(t) as int, TWO64)
  {
    hide CubeRoot, RoundConstant512, Prime;
    if t < 8 { Root512In0(t); } else if t < 16 { Root512In1(t); } else if t < 24 { Root512In2(t); } else
    if t < 32 { Root512In3(t); } else if t < 40 { Root512In4(t); } else if t < 48 { Root512In5(t); } else
    if t < 56 { Root512In6(t); } else if t < 64 { Root512In7(t); } else if t < 72 { Root512In8(t); } else
    { Root512In9(t); }
  }

  lemma Root512In0(t: nat)
    requires 0 <= t < 8
    ensures CubeRoot(Prime(t), RoundConstant512(t) as int, TWO64)
  {
    hide CubeRoot, RoundConstant512, Prime;
    Primes0();
    Roots512Part0();
    Roots512Part1();
    match t
    case 0 => assert CubeRoot(Prime(0), RoundConstant512(0) as int, TWO64);
    case 1 => assert CubeRoot(Prime(1), RoundConstant512(1) as int, TWO64);
    case 2 => assert CubeRoot(Prime(2), RoundConstant512(2) as int, TWO64);
    case 3 => assert CubeRoot(Prime(3), RoundConstant512(3) as int, TWO64);
    case 4 => assert CubeRoot(Prime(4), RoundConstant512(4) as int, TWO64);
    case 5 => assert CubeRoot(Prime(5), RoundConstant512(5) as int, TWO64);
    case 6 => assert CubeRoot(Prime(6), RoundConstant512(6) as int, TWO64);
    case _ => assert CubeRoot(Prime(7), RoundConstant512(7) as int, TWO64);
  }

  lemma Root512In1(t: nat)
    requires 8 <= t < 16
    ensures CubeRoot(Prime(t), RoundConstant512(t) as int, TWO64)
  {
    hide CubeRoot, RoundConstant512, Prime;
    Primes0();
    Roots512Part2();
    Roots512Part3();
    match t
    case 8 => assert CubeRoot(Prime(8), RoundConstant512(8) as int, TWO64);
    case 9 => assert CubeRoot(Prime(9), RoundConstant512(9) as int, TWO64);
    case 10 => assert CubeRoot(Prime(10), RoundConstant512(10) as int, TWO64);
    case 11 => assert CubeRoot(Prime(11), RoundConstant512(11) as int, TWO64);
    case 12 => assert CubeRoot(Prime(12), RoundConstant512(12) as int, TWO64);
    case 13 => assert CubeRoot(Prime(13), RoundConstant512(13) as int, TWO64);
    case 14 => assert CubeRoot(Prime(14), RoundConstant512(14) as int, TWO64);
    case _ => assert CubeRoot(Prime(15), RoundConstant512(15) as int, TWO64);
  }

  lemma Root512In2(t: nat)
    requires 16 <= t < 24
    ensures CubeRoot(Prime(t), RoundConstant512(t) as int, TWO64)
  {
    hide CubeRoot, RoundConstant512, Prime;
    Primes1();
    Roots512Part4();
    Roots512Part5();
    match t
    case 16 => assert CubeRoot(Prime(16), RoundConstant512(16) as int, TWO64);
    case 17 => assert CubeRoot(Prime(17), RoundConstant512(17) as int, TWO64);
    case 18 => assert CubeRoot(Prime(18), RoundConstant512(18) as int, TWO64);
    case 19 => assert CubeRoot(Prime(19), RoundConstant512(19) as int, TWO64);
    case 20 => assert CubeRoot(Prime(20), RoundConstant512(20) as int, TWO64);
    case 21 => assert CubeRoot(Prime(21), RoundConstant512(21) as int, TWO64);
    case 22 => assert CubeRoot(Prime(22), RoundConstant512(22) as int, TWO64);
    case _ => assert CubeRoot(Prime(23), RoundConstant512(23) as int, TWO64);
  }

  lemma Root512In3(t: nat)
    requires 24 <= t < 32
    ensures CubeRoot(Prime(t), RoundConstant512(t) as int, TWO64)
  {
    hide CubeRoot, RoundConstant512, Prime;
    Primes1();
    Roots512Part6();
    Roots512Part7();
    match t
    case 24 => assert CubeRoot(Prime(24), RoundConstant512(24) as int, TWO64);
    case 25 => assert CubeRoot(Prime(25), RoundConstant512(25) as int, TWO64);
    case 26 => assert CubeRoot(Prime(26), RoundConstant512(26) as int, TWO64);
    case 27 => assert CubeRoot(Prime(27), RoundConstant512(27) as int, TWO64);
    case 28 => assert CubeRoot(Prime(28), RoundConstant512(28) as int, TWO64);
    case 29 => assert CubeRoot(Prime(29), RoundConstant512(29) as int, TWO64);
    case 30 => assert CubeRoot(Prime(30), RoundConstant512(30) as int, TWO64);
    case _ => assert CubeRoot(Prime(31), RoundConstant512(31) as int, TWO64);
  }

  lemma Root512In4(t: nat)
    requires 32 <= t < 40
    ensures CubeRoot(Prime(t), RoundConstant512(t) as int, TWO64)
  {
    hide CubeRoot, RoundConstant512, Prime;
    Primes2();
    Roots512Part8();
    Roots512Part9();
    match t
    case 32 => assert CubeRoot(Prime(32), RoundConstant512(32) as int, TWO64);
    case 33 => assert CubeRoot(Prime(33), RoundConstant512(33) as int, TWO64);
    case 34 => assert CubeRoot(Prime(34), RoundConstant512(34) as int, TWO64);
    case 35 => assert CubeRoot(Prime(35), RoundConstant512(35) as int, TWO64);
    case 36 => assert CubeRoot(Prime(36), RoundConstant512(36) as int, TWO64);
    case 37 => assert CubeRoot(Prime(37), RoundConstant512(37) as int, TWO64);
    case 38 => assert CubeRoot(Prime(38), RoundConstant512(38) as int, TWO64);
    case _ => assert CubeRoot(Prime(39), RoundConstant512(39) as int, TWO64);
  }

  lemma Root512In5(t: nat)
    requires 40 <= t < 48
    ensures CubeRoot(Prime(t), RoundConstant512(t) as int, TWO64)
  {
    hide CubeRoot, RoundConstant512, Prime;
    Primes2();
    Roots512Part10();
    Roots512Part11();
    match t
    case 40 => assert CubeRoot(Prime(40), RoundConstant512(40) as int, TWO64);
    case 41 => assert CubeRoot(Prime(41), RoundConstant512(41) as int, TWO64);
    case 42 => assert CubeRoot(Prime(42), RoundConstant512(42) as int, TWO64);
    case 43 => assert CubeRoot(Prime(43), RoundConstant512(43) as int, TWO64);
    case 44 => assert CubeRoot(Prime(44), RoundConstant512(44) as int, TWO64);
    case 45 => assert CubeRoot(Prime(45), RoundConstant512(45) as int, TWO64);
    case 46 => assert CubeRoot(Prime(46), RoundConstant512(46) as int, TWO64);
    case _ => assert CubeRoot(Prime(47), RoundConstant512(47) as int, TWO64);
  }

  lemma Root512In6(t: nat)
    requires 48 <= t < 56
    ensures CubeRoot(Prime(t), RoundConstant512(t) as int, TWO64)
  {
    hide CubeRoot, RoundConstant512, Prime;
    Primes3();
    Roots512Part12();
    Roots512Part13();
    match t
    case 48 => assert CubeRoot(Prime(48), RoundConstant512(48) as int, TWO64);
    case 49 => assert CubeRoot(Prime(49), RoundConstant512(49) as int, TWO64);
    case 50 => assert CubeRoot(Prime(50), RoundConstant512(50) as int, TWO64);
    case 51 => assert CubeRoot(Prime(51), RoundConstant512(51) as int, TWO64);
    case 52 => assert CubeRoot(Prime(52), RoundConstant512(52) as int, TWO64);
    case 53 => assert CubeRoot(Prime(53), RoundConstant512(53) as int, TWO64);
    case 54 => assert CubeRoot(Prime(54), RoundConstant512(54) as int, TWO64);
    case _ => assert CubeRoot(Prime(55), RoundConstant512(55) as int, TWO64);
  }

  lemma Root512In7(t: nat)
    requires 56 <= t < 64
    ensures CubeRoot(Prime(t), RoundConstant512(t) as int, TWO64)
  {
    hide CubeRoot, RoundConstant512, Prime;
    Primes3();
    Roots512Part14();
    Roots512Part15();
    match t
    case 56 => assert CubeRoot(Prime(56), RoundConstant512(56) as int, TWO64);
    case 57 => assert CubeRoot(Prime(57), RoundConstant512(57) as int, TWO64);
    case 58 => assert CubeRoot(Prime(58), RoundConstant512(58) as int, TWO64);
    case 59 => assert CubeRoot(Prime(59), RoundConstant512(59) as int, TWO64);
    case 60 => assert CubeRoot(Prime(60), RoundConstant512(60) as int, TWO64);
    case 61 => assert CubeRoot(Prime(61), RoundConstant512(61) as int, TWO64);
    case 62 => assert CubeRoot(Prime(62), RoundConstant512(62) as int, TWO64);
    case _ => assert CubeRoot(Prime(63), RoundConstant512(63) as int, TWO64);
  }

  lemma Root512In8(t: nat)
    requires 64 <= t < 72
    ensures CubeRoot(Prime(t), RoundConstant512(t) as int, TWO64)
  {
    hide CubeRoot, RoundConstant512, Prime;
    Primes4();
    Roots512Part16();
    Roots512Part17();
    match t
    case 64 => assert CubeRoot(Prime(64), RoundConstant512(64) as int, TWO64);
    case 65 => assert CubeRoot(Prime(65), RoundConstant512(65) as int, TWO64);
    case 66 => assert CubeRoot(Prime(66), RoundConstant512(66) as int, TWO64);
    case 67 => assert CubeRoot(Prime(67), RoundConstant512(67) as int, TWO64);
    case 68 => assert CubeRoot(Prime(68), RoundConstant512(68) as int, TWO64);
    case 69 => assert CubeRoot(Prime(69), RoundConstant512(69) as int, TWO64);
    case 70 => assert CubeRoot(Prime(70), RoundConstant512(70) as int, TWO64);
    case _ => assert CubeRoot(Prime(71), RoundConstant512(71) as int, TWO64);
  }

  lemma Root512In9(t: nat)
    requires 72 <= t < 80
    ensures CubeRoot(Prime(t), RoundConstant512(t) as int, TWO64)
  {
    hide CubeRoot, RoundConstant512, Prime;
    Primes4();
    Roots512Part18();
    Roots512Part19();
    match t
    case 72 => assert CubeRoot(Prime(72), RoundConstant512(72) as int, TWO64);
    case 73 => assert CubeRoot(Prime(73), RoundConstant512(73) as int, TWO64);
    case 74 => assert CubeRoot(Prime(74), RoundConstant512(74) as int, TWO64);
    case 75 => assert CubeRoot(Prime(75), RoundConstant512(75) as int, TWO64);
    case 76 => assert CubeRoot(Prime(76), RoundConstant512(76) as int, TWO64);
    case 77 => assert CubeRoot(Prime(77), RoundConstant512(77) as int, TWO64);
    case 78 => assert CubeRoot(Prime(78), RoundConstant512(78) as int, TWO64);
    case _ => assert CubeRoot(Prime(79), RoundConstant512(79) as int, TWO64);
  }

  /** The initial value of SHA-256 is the square roots of the first eight primes. */
  lemma InitialIsRoots256()
    ensures SquareRoot(Prime(0), IV256.a as int, TWO32)
    ensures SquareRoot(Prime(1), IV256.b as int, TWO32)
    ensures SquareRoot(Prime(2), IV256.c as int, TWO32)
    ensures SquareRoot(Prime(3), IV256.d as int, TWO32)
    ensures SquareRoot(Prime(4), IV256.e as int, TWO32)
    ensures SquareRoot(Prime(5), IV256.f as int, TWO32)
    ensures SquareRoot(Prime(6), IV256.g as int, TWO32)
    ensures SquareRoot(Prime(7), IV256.h as int, TWO32)
  {
    Primes0();
  }

  /** The initial value of SHA-512 is the square roots of the first eight primes. */
  lemma InitialIsRoots512()
    ensures SquareRoot(Prime(0), IV512.a as int, TWO64)
    ensures SquareRoot(Prime(1), IV512.b as int, TWO64)
    ensures SquareRoot(Prime(2), IV512.c as int, TWO64)
    ensures SquareRoot(Prime(3), IV512.d as int, TWO64)
    ensures SquareRoot(Prime(4), IV512.e as int, TWO64)
    ensures SquareRoot(Prime(5), IV512.f as int, TWO64)
    ensures SquareRoot(Prime(6), IV512.g as int, TWO64)
    ensures SquareRoot(Prime(7), IV512.h as int, TWO64)
  {
    Primes0();
  }

  /** The initial value of SHA-384 is the square roots of the ninth to the sixteenth prime. */
  lemma InitialIsRoots384()
    ensures SquareRoot(Prime(8), IV384.a as int, TWO64)
    ensures SquareRoot(Prime(9), IV384.b as int, TWO64)
    ensures SquareRoot(Prime(10), IV384.c as int, TWO64)
    ensures SquareRoot(Prime(11), IV384.d as int, TWO64)
    ensures SquareRoot(Prime(12), IV384.e as int, TWO64)
    ensures SquareRoot(Prime(13), IV384.f as int, TWO64)
    ensures SquareRoot(Prime(14), IV384.g as int, TWO64)
    ensures SquareRoot(Prime(15), IV384.h as int, TWO64)
  {
    Primes0();
  }
}
