/**
 * MD5 as RFC 1321 defines it, written from the RFC's own description: the
 * auxiliary functions and the four rounds of section 3.4 (with the sixty-four
 * T[i] constants of its listing), the initial buffer of section 3.3, the padding
 * and length of sections 3.1 and 3.2, and the low-order-byte-first output of
 * section 3.5.  This is the reference the hand-written digest in ScriptMd5 is
 * proved against.
 */
module Rfc1321 {
  type Byte = bv8
  type Word = bv32

  /** The four-word buffer (A, B, C, D) of section 3.3. */
  datatype State = State(a: Word, b: Word, c: Word, d: Word)

  /** Section 3.3: word A: 01 23 45 67, B: 89 ab cd ef, C: fe dc ba 98, D: 76 54 32 10 (low-order bytes first). */
  const Init: State := State(0x67452301, 0xefcdab89, 0x98badcfe, 0x10325476)

  // Section 3.4: the auxiliary functions, and the one that round r (0 to 3) uses.
  function F(x: Word, y: Word, z: Word): Word { (x & y) | (!x & z) }
  function G(x: Word, y: Word, z: Word): Word { (x & z) | (y & !z) }
  function H(x: Word, y: Word, z: Word): Word { x ^ y ^ z }
  function I(x: Word, y: Word, z: Word): Word { y ^ (x | !z) }

  function Aux(r: nat, x: Word, y: Word, z: Word): Word
  {
    if r == 0 then F(x, y, z) else if r == 1 then G(x, y, z) else if r == 2 then H(x, y, z) else I(x, y, z)
  }

  /** "+" of section 2: addition modulo 2^32. */
  function Add(x: Word, y: Word): Word { x + y }

  lemma AddCommutes(x: Word, y: Word)
    ensures Add(x, y) == Add(y, x)
  {}

  /** "X <<< s" of section 2: X rotated left by s bit positions (taken modulo 32). */
  function RotL(x: Word, s: Word): Word
  {
    var r := s % 32;
    (x << r) | (x >> (32 - r))
  }

  /**
   * One step "[abcd k s i]" of section 3.4: a = b + ((a + g + X[k] + T[i]) <<< s),
   * with g the round's auxiliary function applied to b, c, d.  The sum of four
   * terms is taken modulo 2^32, so its grouping does not change its value;
   * it is written here as (a + g) + (X[k] + T[i]).
   */
  function Op(g: Word, a: Word, b: Word, xk: Word, s: Word, t: Word): Word
  {
    Add(b, RotL(Add(Add(a, g), Add(xk, t)), s))
  }

  // The steps are stated over any step operation and any choice of auxiliary
  // functions, so that the order of the steps can be reasoned about apart from
  // the arithmetic of each step.
  type StepOp = (Word, Word, Word, Word, Word, Word) -> Word
  type AuxOp = (nat, Word, Word, Word) -> Word

  /** Round 1 as section 3.4 lists it: sixteen steps with F. */
  function Round1(op: StepOp, aux: AuxOp, s: State, X: seq<Word>): State
    requires |X| == 16
  {
    var a, b, c, d := s.a, s.b, s.c, s.d;
    var a := op(aux(0, b, c, d), a, b, X[0], 7, 0xd76aa478); var d := op(aux(0, a, b, c), d, a, X[1], 12, 0xe8c7b756);
    var c := op(aux(0, d, a, b), c, d, X[2], 17, 0x242070db); var b := op(aux(0, c, d, a), b, c, X[3], 22, 0xc1bdceee);
    var a := op(aux(0, b, c, d), a, b, X[4], 7, 0xf57c0faf); var d := op(aux(0, a, b, c), d, a, X[5], 12, 0x4787c62a);
    var c := op(aux(0, d, a, b), c, d, X[6], 17, 0xa8304613); var b := op(aux(0, c, d, a), b, c, X[7], 22, 0xfd469501);
    var a := op(aux(0, b, c, d), a, b, X[8], 7, 0x698098d8); var d := op(aux(0, a, b, c), d, a, X[9], 12, 0x8b44f7af);
    var c := op(aux(0, d, a, b), c, d, X[10], 17, 0xffff5bb1); var b := op(aux(0, c, d, a), b, c, X[11], 22, 0x895cd7be);
    var a := op(aux(0, b, c, d), a, b, X[12], 7, 0x6b901122); var d := op(aux(0, a, b, c), d, a, X[13], 12, 0xfd987193);
    var c := op(aux(0, d, a, b), c, d, X[14], 17, 0xa679438e); var b := op(aux(0, c, d, a), b, c, X[15], 22, 0x49b40821);
    State(a, b, c, d)
  }

  /** Round 2 as section 3.4 lists it: sixteen steps with G. */
  function Round2(op: StepOp, aux: AuxOp, s: State, X: seq<Word>): State
    requires |X| == 16
  {
    var a, b, c, d := s.a, s.b, s.c, s.d;
    var a := op(aux(1, b, c, d), a, b, X[1], 5, 0xf61e2562); var d := op(aux(1, a, b, c), d, a, X[6], 9, 0xc040b340);
    var c := op(aux(1, d, a, b), c, d, X[11], 14, 0x265e5a51); var b := op(aux(1, c, d, a), b, c, X[0], 20, 0xe9b6c7aa);
    var a := op(aux(1, b, c, d), a, b, X[5], 5, 0xd62f105d); var d := op(aux(1, a, b, c), d, a, X[10], 9, 0x02441453);
    var c := op(aux(1, d, a, b), c, d, X[15], 14, 0xd8a1e681); var b := op(aux(1, c, d, a), b, c, X[4], 20, 0xe7d3fbc8);
    var a := op(aux(1, b, c, d), a, b, X[9], 5, 0x21e1cde6); var d := op(aux(1, a, b, c), d, a, X[14], 9, 0xc33707d6);
    var c := op(aux(1, d, a, b), c, d, X[3], 14, 0xf4d50d87); var b := op(aux(1, c, d, a), b, c, X[8], 20, 0x455a14ed);
    var a := op(aux(1, b, c, d), a, b, X[13], 5, 0xa9e3e905); var d := op(aux(1, a, b, c), d, a, X[2], 9, 0xfcefa3f8);
    var c := op(aux(1, d, a, b), c, d, X[7], 14, 0x676f02d9); var b := op(aux(1, c, d, a), b, c, X[12], 20, 0x8d2a4c8a);
    State(a, b, c, d)
  }

  /** Round 3 as section 3.4 lists it: sixteen steps with H. */
  function Round3(op: StepOp, aux: AuxOp, s: State, X: seq<Word>): State
    requires |X| == 16
  {
    var a, b, c, d := s.a, s.b, s.c, s.d;
    var a := op(aux(2, b, c, d), a, b, X[5], 4, 0xfffa3942); var d := op(aux(2, a, b, c), d, a, X[8], 11, 0x8771f681);
    var c := op(aux(2, d, a, b), c, d, X[11], 16, 0x6d9d6122); var b := op(aux(2, c, d, a), b, c, X[14], 23, 0xfde5380c);
    var a := op(aux(2, b, c, d), a, b, X[1], 4, 0xa4beea44); var d := op(aux(2, a, b, c), d, a, X[4], 11, 0x4bdecfa9);
    var c := op(aux(2, d, a, b), c, d, X[7], 16, 0xf6bb4b60); var b := op(aux(2, c, d, a), b, c, X[10], 23, 0xbebfbc70);
    var a := op(aux(2, b, c, d), a, b, X[13], 4, 0x289b7ec6); var d := op(aux(2, a, b, c), d, a, X[0], 11, 0xeaa127fa);
    var c := op(aux(2, d, a, b), c, d, X[3], 16, 0xd4ef3085); var b := op(aux(2, c, d, a), b, c, X[6], 23, 0x04881d05);
    var a := op(aux(2, b, c, d), a, b, X[9], 4, 0xd9d4d039); var d := op(aux(2, a, b, c), d, a, X[12], 11, 0xe6db99e5);
    var c := op(aux(2, d, a, b), c, d, X[15], 16, 0x1fa27cf8); var b := op(aux(2, c, d, a), b, c, X[2], 23, 0xc4ac5665);
    State(a, b, c, d)
  }

  /** Round 4 as section 3.4 lists it: sixteen steps with I. */
  function Round4(op: StepOp, aux: AuxOp, s: State, X: seq<Word>): State
    requires |X| == 16
  {
    var a, b, c, d := s.a, s.b, s.c, s.d;
    var a := op(aux(3, b, c, d), a, b, X[0], 6, 0xf4292244); var d := op(aux(3, a, b, c), d, a, X[7], 10, 0x432aff97);
    var c := op(aux(3, d, a, b), c, d, X[14], 15, 0xab9423a7); var b := op(aux(3, c, d, a), b, c, X[5], 21, 0xfc93a039);
    var a := op(aux(3, b, c, d), a, b, X[12], 6, 0x655b59c3); var d := op(aux(3, a, b, c), d, a, X[3], 10, 0x8f0ccc92);
    var c := op(aux(3, d, a, b), c, d, X[10], 15, 0xffeff47d); var b := op(aux(3, c, d, a), b, c, X[1], 21, 0x85845dd1);
    var a := op(aux(3, b, c, d), a, b, X[8], 6, 0x6fa87e4f); var d := op(aux(3, a, b, c), d, a, X[15], 10, 0xfe2ce6e0);
    var c := op(aux(3, d, a, b), c, d, X[6], 15, 0xa3014314); var b := op(aux(3, c, d, a), b, c, X[13], 21, 0x4e0811a1);
    var a := op(aux(3, b, c, d), a, b, X[4], 6, 0xf7537e82); var d := op(aux(3, a, b, c), d, a, X[11], 10, 0xbd3af235);
    var c := op(aux(3, d, a, b), c, d, X[2], 15, 0x2ad7d2bb); var b := op(aux(3, c, d, a), b, c, X[9], 21, 0xeb86d391);
    State(a, b, c, d)
  }

  // The same sixty-four steps as a table: step i uses word K(i) of the block,
  // shift S(i) and constant T(i) (the "[abcd k s i]" entries of the listing,
  // with i counted from 0), and each step turns (a, b, c, d) into (d, a', b, c).

  function K(i: nat): nat
  {
    if i < 32 then
      if i < 16 then
        if i < 8 then
          if i < 4 then
            if i < 2 then
              if i < 1 then 0 else 1
            else
              if i < 3 then 2 else 3
          else
            if i < 6 then
              if i < 5 then 4 else 5
            else
              if i < 7 then 6 else 7
        else
          if i < 12 then
            if i < 10 then
              if i < 9 then 8 else 9
            else
              if i < 11 then 10 else 11
          else
            if i < 14 then
              if i < 13 then 12 else 13
            else
              if i < 15 then 14 else 15
      else
        if i < 24 then
          if i < 20 then
            if i < 18 then
              if i < 17 then 1 else 6
            else
              if i < 19 then 11 else 0
          else
            if i < 22 then
              if i < 21 then 5 else 10
            else
              if i < 23 then 15 else 4
        else
          if i < 28 then
            if i < 26 then
              if i < 25 then 9 else 14
            else
              if i < 27 then 3 else 8
          else
            if i < 30 then
              if i < 29 then 13 else 2
            else
              if i < 31 then 7 else 12
    else
      if i < 48 then
        if i < 40 then
          if i < 36 then
            if i < 34 then
              if i < 33 then 5 else 8
            else
              if i < 35 then 11 else 14
          else
            if i < 38 then
              if i < 37 then 1 else 4
            else
              if i < 39 then 7 else 10
        else
          if i < 44 then
            if i < 42 then
              if i < 41 then 13 else 0
            else
              if i < 43 then 3 else 6
          else
            if i < 46 then
              if i < 45 then 9 else 12
            else
              if i < 47 then 15 else 2
      else
        if i < 56 then
          if i < 52 then
            if i < 50 then
              if i < 49 then 0 else 7
            else
              if i < 51 then 14 else 5
          else
            if i < 54 then
              if i < 53 then 12 else 3
            else
              if i < 55 then 10 else 1
        else
          if i < 60 then
            if i < 58 then
              if i < 57 then 8 else 15
            else
              if i < 59 then 6 else 13
          else
            if i < 62 then
              if i < 61 then 4 else 11
            else
              if i < 63 then 2 else 9
  }

  function S(i: nat): Word
  {
    if i < 32 then
      if i < 16 then
        if i < 8 then
          if i < 4 then
            if i < 2 then
              if i < 1 then 7 else 12
            else
              if i < 3 then 17 else 22
          else
            if i < 6 then
              if i < 5 then 7 else 12
            else
              if i < 7 then 17 else 22
        else
          if i < 12 then
            if i < 10 then
              if i < 9 then 7 else 12
            else
              if i < 11 then 17 else 22
          else
            if i < 14 then
              if i < 13 then 7 else 12
            else
              if i < 15 then 17 else 22
      else
        if i < 24 then
          if i < 20 then
            if i < 18 then
              if i < 17 then 5 else 9
            else
              if i < 19 then 14 else 20
          else
            if i < 22 then
              if i < 21 then 5 else 9
            else
              if i < 23 then 14 else 20
        else
          if i < 28 then
            if i < 26 then
              if i < 25 then 5 else 9
            else
              if i < 27 then 14 else 20
          else
            if i < 30 then
              if i < 29 then 5 else 9
            else
              if i < 31 then 14 else 20
    else
      if i < 48 then
        if i < 40 then
          if i < 36 then
            if i < 34 then
              if i < 33 then 4 else 11
            else
              if i < 35 then 16 else 23
          else
            if i < 38 then
              if i < 37 then 4 else 11
            else
              if i < 39 then 16 else 23
        else
          if i < 44 then
            if i < 42 then
              if i < 41 then 4 else 11
            else
              if i < 43 then 16 else 23
          else
            if i < 46 then
              if i < 45 then 4 else 11
            else
              if i < 47 then 16 else 23
      else
        if i < 56 then
          if i < 52 then
            if i < 50 then
              if i < 49 then 6 else 10
            else
              if i < 51 then 15 else 21
          else
            if i < 54 then
              if i < 53 then 6 else 10
            else
              if i < 55 then 15 else 21
        else
          if i < 60 then
            if i < 58 then
              if i < 57 then 6 else 10
            else
              if i < 59 then 15 else 21
          else
            if i < 62 then
              if i < 61 then 6 else 10
            else
              if i < 63 then 15 else 21
  }

  /** T[i + 1] of section 3.4, the integer part of 4294967296 times abs(sin(i + 1)). */
  function T(i: nat): Word
  {
    if i < 32 then
      if i < 16 then
        if i < 8 then
          if i < 4 then
            if i < 2 then
              if i < 1 then 0xd76aa478 else 0xe8c7b756
            else
              if i < 3 then 0x242070db else 0xc1bdceee
          else
            if i < 6 then
              if i < 5 then 0xf57c0faf else 0x4787c62a
            else
              if i < 7 then 0xa8304613 else 0xfd469501
        else
          if i < 12 then
            if i < 10 then
              if i < 9 then 0x698098d8 else 0x8b44f7af
            else
              if i < 11 then 0xffff5bb1 else 0x895cd7be
          else
            if i < 14 then
              if i < 13 then 0x6b901122 else 0xfd987193
            else
              if i < 15 then 0xa679438e else 0x49b40821
      else
        if i < 24 then
          if i < 20 then
            if i < 18 then
              if i < 17 then 0xf61e2562 else 0xc040b340
            else
              if i < 19 then 0x265e5a51 else 0xe9b6c7aa
          else
            if i < 22 then
              if i < 21 then 0xd62f105d else 0x02441453
            else
              if i < 23 then 0xd8a1e681 else 0xe7d3fbc8
        else
          if i < 28 then
            if i < 26 then
              if i < 25 then 0x21e1cde6 else 0xc33707d6
            else
              if i < 27 then 0xf4d50d87 else 0x455a14ed
          else
            if i < 30 then
              if i < 29 then 0xa9e3e905 else 0xfcefa3f8
            else
              if i < 31 then 0x676f02d9 else 0x8d2a4c8a
    else
      if i < 48 then
        if i < 40 then
          if i < 36 then
            if i < 34 then
              if i < 33 then 0xfffa3942 else 0x8771f681
            else
              if i < 35 then 0x6d9d6122 else 0xfde5380c
          else
            if i < 38 then
              if i < 37 then 0xa4beea44 else 0x4bdecfa9
            else
              if i < 39 then 0xf6bb4b60 else 0xbebfbc70
        else
          if i < 44 then
            if i < 42 then
              if i < 41 then 0x289b7ec6 else 0xeaa127fa
            else
              if i < 43 then 0xd4ef3085 else 0x04881d05
          else
            if i < 46 then
              if i < 45 then 0xd9d4d039 else 0xe6db99e5
            else
              if i < 47 then 0x1fa27cf8 else 0xc4ac5665
      else
        if i < 56 then
          if i < 52 then
            if i < 50 then
              if i < 49 then 0xf4292244 else 0x432aff97
            else
              if i < 51 then 0xab9423a7 else 0xfc93a039
          else
            if i < 54 then
              if i < 53 then 0x655b59c3 else 0x8f0ccc92
            else
              if i < 55 then 0xffeff47d else 0x85845dd1
        else
          if i < 60 then
            if i < 58 then
              if i < 57 then 0x6fa87e4f else 0xfe2ce6e0
            else
              if i < 59 then 0xa3014314 else 0x4e0811a1
          else
            if i < 62 then
              if i < 61 then 0xf7537e82 else 0xbd3af235
            else
              if i < 63 then 0x2ad7d2bb else 0xeb86d391
  }

  function Step(op: StepOp, aux: AuxOp, st: State, X: seq<Word>, i: nat): State
    requires |X| == 16
  {
    State(st.d, op(aux(i / 16, st.b, st.c, st.d), st.a, st.b, X[K(i)], S(i), T(i)), st.b, st.c)
  }

  /**
   * Steps i to n - 1 applied to st: none, one, or the steps before n - 1
   * followed by step n - 1.
   */
  function Run(op: StepOp, aux: AuxOp, st: State, X: seq<Word>, i: nat, n: nat): State
    requires |X| == 16 && i <= n
    decreases n - i
  {
    if n == i then st
    else if n == i + 1 then Step(op, aux, st, X, i)
    else Run(op, aux, Run(op, aux, st, X, i, n - 1), X, n - 1, n)
  }

  /** The last step of a run comes after all the others. */
  lemma RunLast(op: StepOp, aux: AuxOp, st: State, X: seq<Word>, i: nat, n: nat)
    requires |X| == 16 && i < n
    ensures Run(op, aux, st, X, i, n) == Step(op, aux, Run(op, aux, st, X, i, n - 1), X, n - 1)
  {
    var y := Run(op, aux, st, X, i, n - 1);
    assert Run(op, aux, y, X, n - 1, n) == Step(op, aux, y, X, n - 1);
  }

  lemma RunLasts(op: StepOp, aux: AuxOp, st: State, X: seq<Word>, i: nat, n: nat)
    requires |X| == 16 && i <= n
    ensures forall j :: i < j <= n ==> Run(op, aux, st, X, i, j) == Step(op, aux, Run(op, aux, st, X, i, j - 1), X, j - 1)
  {
    forall j | i < j <= n
      ensures Run(op, aux, st, X, i, j) == Step(op, aux, Run(op, aux, st, X, i, j - 1), X, j - 1)
    {
      RunLast(op, aux, st, X, i, j);
    }
  }

  lemma {:induction false} RunSplit(op: StepOp, aux: AuxOp, st: State, X: seq<Word>, i: nat, m: nat, n: nat)
    requires |X| == 16 && i <= m <= n
    ensures Run(op, aux, st, X, i, n) == Run(op, aux, Run(op, aux, st, X, i, m), X, m, n)
    decreases n - m
  {
    if n > m {
      RunSplit(op, aux, st, X, i, m, n - 1);
      RunLast(op, aux, st, X, i, n);
      RunLast(op, aux, Run(op, aux, st, X, i, m), X, m, n);
    }
  }

  /** The listing of round 1 is steps 0 to 15 of the table. */
  lemma Round1Run(op: StepOp, aux: AuxOp, s: State, X: seq<Word>)
    requires |X| == 16
    ensures Round1(op, aux, s, X) == Run(op, aux, s, X, 0, 16)
  {
    RunLasts(op, aux, s, X, 0, 16);
    ghost var states := [
      Run(op, aux, s, X, 0, 1), Run(op, aux, s, X, 0, 2), Run(op, aux, s, X, 0, 3), Run(op, aux, s, X, 0, 4),
      Run(op, aux, s, X, 0, 5), Run(op, aux, s, X, 0, 6), Run(op, aux, s, X, 0, 7), Run(op, aux, s, X, 0, 8),
      Run(op, aux, s, X, 0, 9), Run(op, aux, s, X, 0, 10), Run(op, aux, s, X, 0, 11), Run(op, aux, s, X, 0, 12),
      Run(op, aux, s, X, 0, 13), Run(op, aux, s, X, 0, 14), Run(op, aux, s, X, 0, 15), Run(op, aux, s, X, 0, 16)
    ];
  }

  /** The listing of round 2 is steps 16 to 31 of the table. */
  lemma Round2Run(op: StepOp, aux: AuxOp, s: State, X: seq<Word>)
    requires |X| == 16
    ensures Round2(op, aux, s, X) == Run(op, aux, s, X, 16, 32)
  {
    RunLasts(op, aux, s, X, 16, 32);
    ghost var states := [
      Run(op, aux, s, X, 16, 17), Run(op, aux, s, X, 16, 18), Run(op, aux, s, X, 16, 19), Run(op, aux, s, X, 16, 20),
      Run(op, aux, s, X, 16, 21), Run(op, aux, s, X, 16, 22), Run(op, aux, s, X, 16, 23), Run(op, aux, s, X, 16, 24),
      Run(op, aux, s, X, 16, 25), Run(op, aux, s, X, 16, 26), Run(op, aux, s, X, 16, 27), Run(op, aux, s, X, 16, 28),
      Run(op, aux, s, X, 16, 29), Run(op, aux, s, X, 16, 30), Run(op, aux, s, X, 16, 31), Run(op, aux, s, X, 16, 32)
    ];
  }

  /** The listing of round 3 is steps 32 to 47 of the table. */
  lemma Round3Run(op: StepOp, aux: AuxOp, s: State, X: seq<Word>)
    requires |X| == 16
    ensures Round3(op, aux, s, X) == Run(op, aux, s, X, 32, 48)
  {
    RunLasts(op, aux, s, X, 32, 48);
    ghost var states := [
      Run(op, aux, s, X, 32, 33), Run(op, aux, s, X, 32, 34), Run(op, aux, s, X, 32, 35), Run(op, aux, s, X, 32, 36),
      Run(op, aux, s, X, 32, 37), Run(op, aux, s, X, 32, 38), Run(op, aux, s, X, 32, 39), Run(op, aux, s, X, 32, 40),
      Run(op, aux, s, X, 32, 41), Run(op, aux, s, X, 32, 42), Run(op, aux, s, X, 32, 43), Run(op, aux, s, X, 32, 44),
      Run(op, aux, s, X, 32, 45), Run(op, aux, s, X, 32, 46), Run(op, aux, s, X, 32, 47), Run(op, aux, s, X, 32, 48)
    ];
  }

  /** The listing of round 4 is steps 48 to 63 of the table. */
  lemma Round4Run(op: StepOp, aux: AuxOp, s: State, X: seq<Word>)
    requires |X| == 16
    ensures Round4(op, aux, s, X) == Run(op, aux, s, X, 48, 64)
  {
    RunLasts(op, aux, s, X, 48, 64);
    ghost var states := [
      Run(op, aux, s, X, 48, 49), Run(op, aux, s, X, 48, 50), Run(op, aux, s, X, 48, 51), Run(op, aux, s, X, 48, 52),
      Run(op, aux, s, X, 48, 53), Run(op, aux, s, X, 48, 54), Run(op, aux, s, X, 48, 55), Run(op, aux, s, X, 48, 56),
      Run(op, aux, s, X, 48, 57), Run(op, aux, s, X, 48, 58), Run(op, aux, s, X, 48, 59), Run(op, aux, s, X, 48, 60),
      Run(op, aux, s, X, 48, 61), Run(op, aux, s, X, 48, 62), Run(op, aux, s, X, 48, 63), Run(op, aux, s, X, 48, 64)
    ];
  }

  /**
   * The buffer after the first r rounds of section 3.4; round j (1 to 4) is
   * steps 16(j - 1) to 16j - 1 of the table.
   */
  function Rounds(st: State, X: seq<Word>, r: nat): State
    requires |X| == 16 && r <= 4
  {
    if r == 0 then st else Run(Op, Aux, Rounds(st, X, r - 1), X, 16 * (r - 1), 16 * r)
  }

  /** Section 3.4: process one block of sixteen words; A = A + AA and so on at the end. */
  function Transform(st: State, X: seq<Word>): State
    requires |X| == 16
  {
    Process(st, X, 1)
  }

  /**
   * The body of Transform, reached after `depth` levels of recursion that
   * change nothing.  Transform goes through one such level, so that a proof
   * about many blocks sees the sixty-four steps only where it asks for them
   * (TransformIsRounds).
   */
  function Process(st: State, X: seq<Word>, depth: nat): State
    requires |X| == 16
  {
    if depth > 0 then Process(st, X, depth - 1)
    else
      var s := Rounds(st, X, 4);
      State(Add(s.a, st.a), Add(s.b, st.b), Add(s.c, st.c), Add(s.d, st.d))
  }

  lemma TransformIsRounds(st: State, X: seq<Word>)
    requires |X| == 16
    ensures Transform(st, X)
         == State(Add(Rounds(st, X, 4).a, st.a), Add(Rounds(st, X, 4).b, st.b),
                  Add(Rounds(st, X, 4).c, st.c), Add(Rounds(st, X, 4).d, st.d))
  {
    assert Process(st, X, 1) == Process(st, X, 0);
  }

  /** The four rounds are the sixty-four steps of the table, in order. */
  lemma RoundsAreSteps(st: State, X: seq<Word>)
    requires |X| == 16
    ensures Rounds(st, X, 4) == Run(Op, Aux, st, X, 0, 64)
  {
    var s1 := Rounds(st, X, 1);
    var s2 := Rounds(st, X, 2);
    var s3 := Rounds(st, X, 3);
    assert s1 == Run(Op, Aux, st, X, 0, 16) by {
      assert Rounds(st, X, 0) == st;
    }
    assert s2 == Run(Op, Aux, s1, X, 16, 32);
    assert s3 == Run(Op, Aux, s2, X, 32, 48);
    assert Rounds(st, X, 4) == Run(Op, Aux, s3, X, 48, 64);
    RunSplit(Op, Aux, st, X, 0, 16, 64);
    RunSplit(Op, Aux, s1, X, 16, 32, 64);
    RunSplit(Op, Aux, s2, X, 32, 48, 64);
  }

  /** The four rounds, given the states after each of them. */
  lemma RoundsFrom(st: State, X: seq<Word>, s1: State, s2: State, s3: State, s4: State)
    requires |X| == 16
    requires s1 == Run(Op, Aux, st, X, 0, 16) && s2 == Run(Op, Aux, s1, X, 16, 32)
    requires s3 == Run(Op, Aux, s2, X, 32, 48) && s4 == Run(Op, Aux, s3, X, 48, 64)
    ensures Rounds(st, X, 4) == s4
  {
    assert Rounds(st, X, 0) == st;
    assert Rounds(st, X, 1) == s1;
    assert Rounds(st, X, 2) == s2;
    assert Rounds(st, X, 3) == s3;
  }

  // Bytes and words.  Section 2: a sequence of bytes is read as words with the
  // low-order byte of each word first.

  function WordOf(b0: Byte, b1: Byte, b2: Byte, b3: Byte): Word
  {
    (b0 as Word) | ((b1 as Word) << 8) | ((b2 as Word) << 16) | ((b3 as Word) << 24)
  }

  function Encode32(w: Word): (r: seq<Byte>)
    ensures |r| == 4
  {
    [(w & 0xFF) as Byte, ((w >> 8) & 0xFF) as Byte, ((w >> 16) & 0xFF) as Byte, ((w >> 24) & 0xFF) as Byte]
  }

  lemma WordOfEncode32(w: Word)
    ensures var e := Encode32(w); WordOf(e[0], e[1], e[2], e[3]) == w
  {}

  lemma Encode32WordOf(b0: Byte, b1: Byte, b2: Byte, b3: Byte)
    ensures Encode32(WordOf(b0, b1, b2, b3)) == [b0, b1, b2, b3]
  {}

  /**
   * Section 3.4 reads each 64-byte block as sixteen words X[0..15]; this reads
   * any whole number of words.
   */
  function Words(bytes: seq<Byte>): (ws: seq<Word>)
    requires |bytes| % 4 == 0
    ensures |ws| == |bytes| / 4
    decreases |bytes|
  {
    if |bytes| == 0 then [] else [WordOf(bytes[0], bytes[1], bytes[2], bytes[3])] + Words(bytes[4..])
  }

  lemma {:induction false} WordsAt(bytes: seq<Byte>, j: nat)
    requires |bytes| % 4 == 0 && j < |bytes| / 4
    ensures Words(bytes)[j] == WordOf(bytes[4 * j], bytes[4 * j + 1], bytes[4 * j + 2], bytes[4 * j + 3])
    decreases j
  {
    if j > 0 {
      WordsAt(bytes[4..], j - 1);
    }
  }

  lemma {:induction false} WordsAppend(x: seq<Byte>, y: seq<Byte>)
    requires |x| % 4 == 0 && |y| % 4 == 0
    ensures Words(x + y) == Words(x) + Words(y)
    decreases |x|
  {
    if |x| == 0 {
      assert x + y == y;
    } else {
      var h := [WordOf(x[0], x[1], x[2], x[3])];
      assert Words(x + y) == h + Words(x[4..] + y) by {
        assert (x + y)[4..] == x[4..] + y;
        assert (x + y)[0] == x[0] && (x + y)[1] == x[1] && (x + y)[2] == x[2] && (x + y)[3] == x[3];
      }
      WordsAppend(x[4..], y);
      assert h + (Words(x[4..]) + Words(y)) == (h + Words(x[4..])) + Words(y);
    }
  }

  // Sections 3.1 and 3.2: padding and length.

  function ZeroBytes(n: nat): (z: seq<Byte>)
    ensures |z| == n && forall i :: 0 <= i < n ==> z[i] == 0
  {
    seq(n, _ => 0)
  }

  /** Section 3.1: the number of zero bytes after the 0x80 byte so that the length is 56 modulo 64. */
  function PadZeros(n: nat): nat
  {
    (55 - n) % 64
  }

  /** With the 0x80 byte, the zeros and eight bytes of length, the message fills whole blocks. */
  lemma PadZerosFill(n: nat)
    ensures PadZeros(n) < 64 && (n + 1 + PadZeros(n) + 8) % 64 == 0
  {
    var t := (55 - n) / 64;
    assert 55 - n == 64 * t + PadZeros(n);
    assert n + 1 + PadZeros(n) + 8 == 64 * (1 - t);
  }

  /** Section 3.2: the bit length modulo 2^64, as two words, low-order word first. */
  function LengthBytes(n: nat): (r: seq<Byte>)
    ensures |r| == 8
  {
    var bits := (n * 8) % 0x1_0000_0000_0000_0000;
    Encode32((bits % 0x1_0000_0000) as Word) + Encode32((bits / 0x1_0000_0000) as Word)
  }

  function Pad(m: seq<Byte>): seq<Byte>
  {
    m + [0x80] + ZeroBytes(PadZeros(|m|)) + LengthBytes(|m|)
  }

  lemma PadShape(m: seq<Byte>)
    ensures |Pad(m)| % 64 == 0
    ensures |m| + 9 <= |Pad(m)| <= |m| + 72
    ensures Pad(m)[..|m|] == m && Pad(m)[|m|] == 0x80
    ensures forall i :: |m| < i < |Pad(m)| - 8 ==> Pad(m)[i] == 0
    ensures Pad(m)[|Pad(m)| - 8..] == LengthBytes(|m|)
  {
    PadZerosFill(|m|);
  }

  // Section 3.4: the buffer absorbs the padded message one block of sixteen
  // words at a time.

  predicate IsBlocks(blocks: seq<seq<Word>>)
  {
    forall j :: 0 <= j < |blocks| ==> |blocks[j]| == 16
  }

  function Absorb(st: State, blocks: seq<seq<Word>>): State
    requires IsBlocks(blocks)
  {
    if |blocks| == 0 then st else Transform(Absorb(st, blocks[..|blocks| - 1]), blocks[|blocks| - 1])
  }

  lemma AbsorbSnoc(st: State, blocks: seq<seq<Word>>, X: seq<Word>)
    requires IsBlocks(blocks) && |X| == 16
    ensures IsBlocks(blocks + [X])
    ensures Absorb(st, blocks + [X]) == Transform(Absorb(st, blocks), X)
  {
    assert (blocks + [X])[..|blocks|] == blocks;
  }

  /** The 64-byte blocks of a message whose length is a multiple of 64, as words. */
  function Blocks(bytes: seq<Byte>): (r: seq<seq<Word>>)
    requires |bytes| % 64 == 0
    ensures IsBlocks(r) && |r| == |bytes| / 64
    decreases |bytes|
  {
    if |bytes| == 0 then [] else [Words(bytes[..64])] + Blocks(bytes[64..])
  }

  lemma {:induction false} BlocksAppend(x: seq<Byte>, y: seq<Byte>)
    requires |x| % 64 == 0 && |y| % 64 == 0
    ensures Blocks(x + y) == Blocks(x) + Blocks(y)
    decreases |x|
  {
    if |x| == 0 {
      assert x + y == y;
    } else {
      assert (x + y)[..64] == x[..64];
      assert (x + y)[64..] == x[64..] + y;
      BlocksAppend(x[64..], y);
    }
  }

  /** The digest of section 3.5 before it is written out: the buffer after the last block. */
  function Digest(m: seq<Byte>): State
  {
    PadShape(m);
    Absorb(Init, Blocks(Pad(m)))
  }

  /** Section 3.5: the output is A, B, C, D, each beginning with its low-order byte. */
  function Encode(st: State): (r: seq<Byte>)
    ensures |r| == 16
  {
    Encode32(st.a) + Encode32(st.b) + Encode32(st.c) + Encode32(st.d)
  }

  // Printing: each byte as two lowercase hexadecimal digits, high nibble first,
  // as the RFC's test driver (appendix A.3) prints a digest.

  const HexDigits: string := "0123456789abcdef"

  function HexByte(b: Byte): (r: string)
    ensures |r| == 2 && r[0] in HexDigits && r[1] in HexDigits
  {
    [HexDigits[(b >> 4) as int], HexDigits[(b & 0xF) as int]]
  }

  function Hex(bytes: seq<Byte>): (r: string)
    ensures |r| == 2 * |bytes|
    ensures forall i :: 0 <= i < |r| ==> r[i] in HexDigits
  {
    if |bytes| == 0 then [] else HexByte(bytes[0]) + Hex(bytes[1..])
  }

  lemma {:induction false} HexAppend(x: seq<Byte>, y: seq<Byte>)
    ensures Hex(x + y) == Hex(x) + Hex(y)
    decreases |x|
  {
    if |x| == 0 {
      assert x + y == y;
    } else {
      assert (x + y)[1..] == x[1..] + y;
      HexAppend(x[1..], y);
    }
  }

  // Reading the digits back.

  /** The value of a lowercase hexadecimal digit. */
  function DigitValue(c: char): Byte
  {
    if '0' <= c <= '9' then (c as int - '0' as int) as Byte
    else if 'a' <= c <= 'f' then (c as int - 'a' as int + 10) as Byte
    else 0
  }

  lemma DigitValueOf(v: Byte)
    requires v < 16
    ensures DigitValue(HexDigits[v as int]) == v
  {
  }

  /** The byte that two hexadecimal digits spell, high nibble first. */
  function UnhexByte(hi: char, lo: char): Byte
  {
    (DigitValue(hi) << 4) | DigitValue(lo)
  }

  /** The bytes that a string of hexadecimal digits spells. */
  function Unhex(s: string): (bytes: seq<Byte>)
    requires |s| % 2 == 0
    ensures |bytes| == |s| / 2
  {
    if |s| == 0 then [] else [UnhexByte(s[0], s[1])] + Unhex(s[2..])
  }

  lemma HexByteUnhex(b: Byte)
    ensures UnhexByte(HexByte(b)[0], HexByte(b)[1]) == b
  {
    DigitValueOf(b >> 4);
    DigitValueOf(b & 0xF);
  }

  /** Printing loses nothing: the digits read back as the bytes printed. */
  lemma {:induction false} UnhexHex(bytes: seq<Byte>)
    ensures Unhex(Hex(bytes)) == bytes
    decreases |bytes|
  {
    if |bytes| > 0 {
      var h := HexByte(bytes[0]);
      HexByteUnhex(bytes[0]);
      assert Hex(bytes) == h + Hex(bytes[1..]);
      UnhexHex(bytes[1..]);
      assert Hex(bytes)[2..] == Hex(bytes[1..]);
      assert Hex(bytes)[0] == h[0] && Hex(bytes)[1] == h[1];
    }
  }

  /** The message digest of m printed as 32 lowercase hexadecimal digits. */
  function MD5(m: seq<Byte>): (r: string)
    ensures |r| == 32
  {
    Hex(Encode(Digest(m)))
  }
}
