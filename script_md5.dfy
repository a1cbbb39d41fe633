/**
 * The MD5 digest that the browser terminal computes by hand (the md5 method
 * of Terminal in script.js, lines 568-720), proved to follow RFC 1321.
 *
 * JavaScript runs the bitwise operators on 32-bit two's-complement integers,
 * so every value the digest keeps is a bv32 here; a JavaScript number that is
 * only ever consumed by a bitwise operator is kept as its low 32 bits.
 * Characters are bytes: the tail of md51 ORs each character code into its
 * word, and md5blk adds each code shifted into its byte lane, so a code above
 * 0xFF would reach the neighbouring bytes in either case.
 */
module ScriptMd5 {
  import R = Rfc1321

  type Byte = bv8
  type Word = bv32

  /**
   * rotateLeft (script.js:569-571).  JavaScript takes shift counts modulo 32,
   * so an amount of 0 leaves the value as it is, like a rotation by 0.
   */
  function RotateLeft(value: Word, amount: Word): (r: Word)
    ensures r == R.RotL(value, amount)
  {
    RotateLeftBits(value, amount);
    (value << (amount & 31)) | (value >> ((32 - amount) & 31))
  }

  lemma RotateLeftBits(value: Word, amount: Word)
    ensures (value << (amount & 31)) | (value >> ((32 - amount) & 31))
         == (value << (amount % 32)) | (value >> (32 - amount % 32))
  {}

  /** addUnsigned (script.js:573-575): addition modulo 2^32, by way of the low 31 bits. */
  function AddUnsigned(x: Word, y: Word): (r: Word)
    ensures r == R.Add(x, y)
  {
    AddUnsignedBits(x, y);
    ((x & 0x7FFF_FFFF) + (y & 0x7FFF_FFFF)) ^ (x & 0x8000_0000) ^ (y & 0x8000_0000)
  }

  lemma AddUnsignedBits(x: Word, y: Word)
    ensures ((x & 0x7FFF_FFFF) + (y & 0x7FFF_FFFF)) ^ (x & 0x8000_0000) ^ (y & 0x8000_0000) == x + y
  {}

  /** cmn (script.js:654-656) is one step of section 3.4 of RFC 1321 with q = g(b, c, d). */
  function Cmn(q: Word, a: Word, b: Word, x: Word, s: Word, t: Word): (r: Word)
    ensures r == R.Op(q, a, b, x, s, t)
  {
    var r := AddUnsigned(RotateLeft(AddUnsigned(AddUnsigned(a, q), AddUnsigned(x, t)), s), b);
    R.AddCommutes(RotateLeft(AddUnsigned(AddUnsigned(a, q), AddUnsigned(x, t)), s), b);
    r
  }

  /** ff (script.js:658-660): a step of round 1, with F. */
  function FF(a: Word, b: Word, c: Word, d: Word, x: Word, s: Word, t: Word): (r: Word)
    ensures r == R.Op(R.F(b, c, d), a, b, x, s, t)
  {
    Cmn((b & c) | ((!b) & d), a, b, x, s, t)
  }

  /** gg (script.js:662-664): a step of round 2, with G. */
  function GG(a: Word, b: Word, c: Word, d: Word, x: Word, s: Word, t: Word): (r: Word)
    ensures r == R.Op(R.G(b, c, d), a, b, x, s, t)
  {
    Cmn((b & d) | (c & (!d)), a, b, x, s, t)
  }

  /** hh (script.js:666-668): a step of round 3, with H. */
  function HH(a: Word, b: Word, c: Word, d: Word, x: Word, s: Word, t: Word): (r: Word)
    ensures r == R.Op(R.H(b, c, d), a, b, x, s, t)
  {
    Cmn(b ^ c ^ d, a, b, x, s, t)
  }

  /** ii (script.js:670-672): a step of round 4, with I. */
  function II(a: Word, b: Word, c: Word, d: Word, x: Word, s: Word, t: Word): (r: Word)
    ensures r == R.Op(R.I(b, c, d), a, b, x, s, t)
  {
    Cmn(c ^ (b | (!d)), a, b, x, s, t)
  }

  /**
   * Steps 1 to 16 of md5cycle, the sixteen calls to ff
   * (script.js:580-595), in order.
   */
  method FirstRound(a0: Word, b0: Word, c0: Word, d0: Word, k: seq<Word>) returns (a: Word, b: Word, c: Word, d: Word)
    requires |k| == 16
    ensures R.State(a, b, c, d) == R.Run(R.Op, R.Aux, R.State(a0, b0, c0, d0), k, 0, 16)
  {
    a, b, c, d := a0, b0, c0, d0;
    a := FF(a, b, c, d, k[0], 7, -680876936);
    d := FF(d, a, b, c, k[1], 12, -389564586);
    c := FF(c, d, a, b, k[2], 17, 606105819);
    b := FF(b, c, d, a, k[3], 22, -1044525330);
    a := FF(a, b, c, d, k[4], 7, -176418897);
    d := FF(d, a, b, c, k[5], 12, 1200080426);
    c := FF(c, d, a, b, k[6], 17, -1473231341);
    b := FF(b, c, d, a, k[7], 22, -45705983);
    a := FF(a, b, c, d, k[8], 7, 1770035416);
    d := FF(d, a, b, c, k[9], 12, -1958414417);
    c := FF(c, d, a, b, k[10], 17, -42063);
    b := FF(b, c, d, a, k[11], 22, -1990404162);
    a := FF(a, b, c, d, k[12], 7, 1804603682);
    d := FF(d, a, b, c, k[13], 12, -40341101);
    c := FF(c, d, a, b, k[14], 17, -1502002290);
    b := FF(b, c, d, a, k[15], 22, 1236535329);
    R.Round1Run(R.Op, R.Aux, R.State(a0, b0, c0, d0), k);
  }

  /**
   * Steps 17 to 32 of md5cycle, the sixteen calls to gg
   * (script.js:597-612), in order.
   */
  method SecondRound(a0: Word, b0: Word, c0: Word, d0: Word, k: seq<Word>) returns (a: Word, b: Word, c: Word, d: Word)
    requires |k| == 16
    ensures R.State(a, b, c, d) == R.Run(R.Op, R.Aux, R.State(a0, b0, c0, d0), k, 16, 32)
  {
    a, b, c, d := a0, b0, c0, d0;
    a := GG(a, b, c, d, k[1], 5, -165796510);
    d := GG(d, a, b, c, k[6], 9, -1069501632);
    c := GG(c, d, a, b, k[11], 14, 643717713);
    b := GG(b, c, d, a, k[0], 20, -373897302);
    a := GG(a, b, c, d, k[5], 5, -701558691);
    d := GG(d, a, b, c, k[10], 9, 38016083);
    c := GG(c, d, a, b, k[15], 14, -660478335);
    b := GG(b, c, d, a, k[4], 20, -405537848);
    a := GG(a, b, c, d, k[9], 5, 568446438);
    d := GG(d, a, b, c, k[14], 9, -1019803690);
    c := GG(c, d, a, b, k[3], 14, -187363961);
    b := GG(b, c, d, a, k[8], 20, 1163531501);
    a := GG(a, b, c, d, k[13], 5, -1444681467);
    d := GG(d, a, b, c, k[2], 9, -51403784);
    c := GG(c, d, a, b, k[7], 14, 1735328473);
    b := GG(b, c, d, a, k[12], 20, -1926607734);
    R.Round2Run(R.Op, R.Aux, R.State(a0, b0, c0, d0), k);
  }

  /**
   * Steps 33 to 48 of md5cycle, the sixteen calls to hh
   * (script.js:614-629), in order.
   */
  method ThirdRound(a0: Word, b0: Word, c0: Word, d0: Word, k: seq<Word>) returns (a: Word, b: Word, c: Word, d: Word)
    requires |k| == 16
    ensures R.State(a, b, c, d) == R.Run(R.Op, R.Aux, R.State(a0, b0, c0, d0), k, 32, 48)
  {
    a, b, c, d := a0, b0, c0, d0;
    a := HH(a, b, c, d, k[5], 4, -378558);
    d := HH(d, a, b, c, k[8], 11, -2022574463);
    c := HH(c, d, a, b, k[11], 16, 1839030562);
    b := HH(b, c, d, a, k[14], 23, -35309556);
    a := HH(a, b, c, d, k[1], 4, -1530992060);
    d := HH(d, a, b, c, k[4], 11, 1272893353);
    c := HH(c, d, a, b, k[7], 16, -155497632);
    b := HH(b, c, d, a, k[10], 23, -1094730640);
    a := HH(a, b, c, d, k[13], 4, 681279174);
    d := HH(d, a, b, c, k[0], 11, -358537222);
    c := HH(c, d, a, b, k[3], 16, -722521979);
    b := HH(b, c, d, a, k[6], 23, 76029189);
    a := HH(a, b, c, d, k[9], 4, -640364487);
    d := HH(d, a, b, c, k[12], 11, -421815835);
    c := HH(c, d, a, b, k[15], 16, 530742520);
    b := HH(b, c, d, a, k[2], 23, -995338651);
    R.Round3Run(R.Op, R.Aux, R.State(a0, b0, c0, d0), k);
  }

  /**
   * Steps 49 to 64 of md5cycle, the sixteen calls to ii
   * (script.js:631-646), in order.
   */
  method FourthRound(a0: Word, b0: Word, c0: Word, d0: Word, k: seq<Word>) returns (a: Word, b: Word, c: Word, d: Word)
    requires |k| == 16
    ensures R.State(a, b, c, d) == R.Run(R.Op, R.Aux, R.State(a0, b0, c0, d0), k, 48, 64)
  {
    a, b, c, d := a0, b0, c0, d0;
    a := II(a, b, c, d, k[0], 6, -198630844);
    d := II(d, a, b, c, k[7], 10, 1126891415);
    c := II(c, d, a, b, k[14], 15, -1416354905);
    b := II(b, c, d, a, k[5], 21, -57434055);
    a := II(a, b, c, d, k[12], 6, 1700485571);
    d := II(d, a, b, c, k[3], 10, -1894986606);
    c := II(c, d, a, b, k[10], 15, -1051523);
    b := II(b, c, d, a, k[1], 21, -2054922799);
    a := II(a, b, c, d, k[8], 6, 1873313359);
    d := II(d, a, b, c, k[15], 10, -30611744);
    c := II(c, d, a, b, k[6], 15, -1560198380);
    b := II(b, c, d, a, k[13], 21, 1309151649);
    a := II(a, b, c, d, k[4], 6, -145523070);
    d := II(d, a, b, c, k[11], 10, -1120210379);
    c := II(c, d, a, b, k[2], 15, 718787259);
    b := II(b, c, d, a, k[9], 21, -343485551);
    R.Round4Run(R.Op, R.Aux, R.State(a0, b0, c0, d0), k);
  }

  /**
   * md5cycle (script.js:577-652): the state array x takes one block k through
   * the four rounds and adds the result to what it held, as section 3.4 of
   * RFC 1321 does with AA, BB, CC and DD.
   */
  method Md5Cycle(x: array<Word>, k: array<Word>)
    requires x.Length == 4 && k.Length == 16
    modifies x
    ensures R.State(x[0], x[1], x[2], x[3])
         == R.Transform(R.State(old(x[0]), old(x[1]), old(x[2]), old(x[3])), old(k[..]))
  {
    var ks := k[..];
    ghost var st := R.State(x[0], x[1], x[2], x[3]);
    var a, b, c, d := FourRounds(x[0], x[1], x[2], x[3], ks);
    R.TransformIsRounds(st, ks);
    x[0], x[1], x[2], x[3] := AddUnsigned(a, x[0]), AddUnsigned(b, x[1]), AddUnsigned(c, x[2]), AddUnsigned(d, x[3]);
  }

  /** The 64 calls of md5cycle (script.js:580-646) are the four rounds of section 3.4. */
  method FourRounds(a0: Word, b0: Word, c0: Word, d0: Word, k: seq<Word>) returns (a: Word, b: Word, c: Word, d: Word)
    requires |k| == 16
    ensures R.State(a, b, c, d) == R.Rounds(R.State(a0, b0, c0, d0), k, 4)
  {
    a, b, c, d := FirstRound(a0, b0, c0, d0, k);
    ghost var s1 := R.State(a, b, c, d);
    a, b, c, d := SecondRound(a, b, c, d, k);
    ghost var s2 := R.State(a, b, c, d);
    a, b, c, d := ThirdRound(a, b, c, d, k);
    ghost var s3 := R.State(a, b, c, d);
    a, b, c, d := FourthRound(a, b, c, d, k);
    R.RoundsFrom(R.State(a0, b0, c0, d0), k, s1, s2, s3, R.State(a, b, c, d));
  }

  // md5blk (script.js:696-702): the characters of a block, four to a word.

  /**
   * The word md5blk builds from four characters (script.js:699): a sum of
   * shifted character codes.  JavaScript adds them as numbers; every later use
   * goes through a bitwise operator, which keeps the sum modulo 2^32.  The
   * shifted codes do not overlap, so the sum is the RFC's low-byte-first word.
   */
  function CharWord(c0: Byte, c1: Byte, c2: Byte, c3: Byte): (r: Word)
    ensures r == R.WordOf(c0, c1, c2, c3)
  {
    CharWordBits(c0, c1, c2, c3);
    (c0 as Word) + ((c1 as Word) << 8) + ((c2 as Word) << 16) + ((c3 as Word) << 24)
  }

  lemma CharWordBits(c0: Byte, c1: Byte, c2: Byte, c3: Byte)
    ensures (c0 as Word) + ((c1 as Word) << 8) + ((c2 as Word) << 16) + ((c3 as Word) << 24)
         == (c0 as Word) | ((c1 as Word) << 8) | ((c2 as Word) << 16) | ((c3 as Word) << 24)
  {}

  method Md5Blk(s: seq<Byte>) returns (blks: array<Word>)
    requires |s| == 64
    ensures fresh(blks) && blks[..] == R.Words(s)
  {
    blks := new Word[16];
    var i := 0;
    while i < 64
      invariant 0 <= i <= 64 && i % 4 == 0
      invariant forall j :: 0 <= j < i / 4 ==> blks[j] == R.Words(s)[j]
    {
      R.WordsAt(s, i / 4);
      blks[i / 4] := CharWord(s[i], s[i + 1], s[i + 2], s[i + 3]);
      i := i + 4;
    }
  }

  // md51 (script.js:674-694): the padded message, block by block.

  /**
   * The bit length as md51 stores it (script.js:691): n * 8 goes into word 14
   * as a number, and the bitwise operators that later read it keep its low 32
   * bits.  Word 15 stays 0.
   */
  function LengthWord(n: nat): Word
  {
    ((n * 8) % 0x1_0000_0000) as Word
  }

  /** The bytes md51 hashes: the message, 0x80, zeros, then the 32-bit length word and a zero word. */
  function SourcePad(m: seq<Byte>): (r: seq<Byte>)
    ensures |r| % 64 == 0
  {
    R.PadZerosFill(|m|);
    m + [0x80] + R.ZeroBytes(R.PadZeros(|m|)) + R.Encode32(LengthWord(|m|)) + R.ZeroBytes(4)
  }

  /** The buffer after md51 has taken every block of the padded message. */
  function SourceDigest(m: seq<Byte>): R.State
  {
    R.Absorb(R.Init, R.Blocks(SourcePad(m)))
  }

  /**
   * Below 2^29 characters the bit length fits in the low word, and md51 pads
   * exactly as sections 3.1 and 3.2 of RFC 1321 do.
   */
  lemma SourcePadIsPad(m: seq<Byte>)
    requires |m| < 0x2000_0000
    ensures SourcePad(m) == R.Pad(m)
  {
    var bits := (|m| * 8) % 0x1_0000_0000_0000_0000;
    assert bits == |m| * 8;
    assert bits % 0x1_0000_0000 == bits && bits / 0x1_0000_0000 == 0;
    assert R.Encode32(0) == R.ZeroBytes(4);
  }

  lemma ZeroBytesAppend(x: nat, y: nat)
    ensures R.ZeroBytes(x + y) == R.ZeroBytes(x) + R.ZeroBytes(y)
  {
    assert R.ZeroBytes(x + y) == R.ZeroBytes(x) + R.ZeroBytes(y);
  }

  /**
   * Character code c moved to byte k of a word: `c << ((i % 4) << 3)` of
   * script.js:684 and 686 for k = i % 4.  JavaScript takes a shift count
   * modulo 32, hence the five-bit count.
   */
  function Lane(c: Byte, k: nat): Word
    requires k < 4
  {
    (c as Word) << ((k as bv5) << 3)
  }

  // Setting byte k of a word from 0 to c is OR-ing c shifted by 8k into it.

  lemma SetByte0(b0: Byte, b1: Byte, b2: Byte, b3: Byte, c: Byte)
    requires b0 == 0
    ensures R.WordOf(c, b1, b2, b3) == R.WordOf(b0, b1, b2, b3) | Lane(c, 0)
  {
    OrBits0(b0, b1, b2, b3, c);
  }

  lemma SetByte1(b0: Byte, b1: Byte, b2: Byte, b3: Byte, c: Byte)
    requires b1 == 0
    ensures R.WordOf(b0, c, b2, b3) == R.WordOf(b0, b1, b2, b3) | Lane(c, 1)
  {
    OrBits1(b0, b1, b2, b3, c);
  }

  lemma SetByte2(b0: Byte, b1: Byte, b2: Byte, b3: Byte, c: Byte)
    requires b2 == 0
    ensures R.WordOf(b0, b1, c, b3) == R.WordOf(b0, b1, b2, b3) | Lane(c, 2)
  {
    OrBits2(b0, b1, b2, b3, c);
  }

  lemma SetByte3(b0: Byte, b1: Byte, b2: Byte, b3: Byte, c: Byte)
    requires b3 == 0
    ensures R.WordOf(b0, b1, b2, c) == R.WordOf(b0, b1, b2, b3) | Lane(c, 3)
  {
    OrBits3(b0, b1, b2, b3, c);
  }

  lemma OrBits0(b0: Byte, b1: Byte, b2: Byte, b3: Byte, c: Byte)
    requires b0 == 0
    ensures (c as Word) | ((b1 as Word) << 8) | ((b2 as Word) << 16) | ((b3 as Word) << 24)
         == ((b0 as Word) | ((b1 as Word) << 8) | ((b2 as Word) << 16) | ((b3 as Word) << 24)) | ((c as Word) << 0)
  {}

  lemma OrBits1(b0: Byte, b1: Byte, b2: Byte, b3: Byte, c: Byte)
    requires b1 == 0
    ensures (b0 as Word) | ((c as Word) << 8) | ((b2 as Word) << 16) | ((b3 as Word) << 24)
         == ((b0 as Word) | ((b1 as Word) << 8) | ((b2 as Word) << 16) | ((b3 as Word) << 24)) | ((c as Word) << 8)
  {}

  lemma OrBits2(b0: Byte, b1: Byte, b2: Byte, b3: Byte, c: Byte)
    requires b2 == 0
    ensures (b0 as Word) | ((b1 as Word) << 8) | ((c as Word) << 16) | ((b3 as Word) << 24)
         == ((b0 as Word) | ((b1 as Word) << 8) | ((b2 as Word) << 16) | ((b3 as Word) << 24)) | ((c as Word) << 16)
  {}

  lemma OrBits3(b0: Byte, b1: Byte, b2: Byte, b3: Byte, c: Byte)
    requires b3 == 0
    ensures (b0 as Word) | ((b1 as Word) << 8) | ((b2 as Word) << 16) | ((c as Word) << 24)
         == ((b0 as Word) | ((b1 as Word) << 8) | ((b2 as Word) << 16) | ((b3 as Word) << 24)) | ((c as Word) << 24)
  {}

  /** md51's tail buffer (script.js:682) holding the bytes p, the rest zero. */
  function TailWords(p: seq<Byte>): (ws: seq<Word>)
    requires |p| <= 64
    ensures |ws| == 16
  {
    R.Words(p + R.ZeroBytes(64 - |p|))
  }

  lemma WordsExt(x: seq<Byte>, u: seq<Word>)
    requires |x| % 4 == 0 && |u| == |x| / 4
    requires forall j :: 0 <= j < |u| ==> R.Words(x)[j] == u[j]
    ensures R.Words(x) == u
  {}

  /** Character i goes to word i div 4 (`i >> 2`), lane i mod 4. */
  lemma Quarter(i: nat)
    ensures i == 4 * (i / 4) + i % 4 && i % 4 < 4
  {}

  /**
   * Writing a character into the tail (script.js:684 and 686) ORs it into word
   * w = |p| div 4 at lane k = |p| mod 4: that is the buffer with the character
   * appended.
   */
  lemma OrIntoTail(p: seq<Byte>, c: Byte, w: nat, k: nat)
    requires |p| < 64 && k < 4 && |p| == 4 * w + k
    ensures TailWords(p + [c]) == TailWords(p)[w := TailWords(p)[w] | Lane(c, k)]
  {
    var u := TailWords(p)[w := TailWords(p)[w] | Lane(c, k)];
    forall j | 0 <= j < 16
      ensures TailWords(p + [c])[j] == u[j]
    {
      OrIntoTailWord(p, c, w, k, j);
    }
    WordsExt(p + [c] + R.ZeroBytes(63 - |p|), u);
  }

  lemma OrIntoTailWord(p: seq<Byte>, c: Byte, w: nat, k: nat, j: nat)
    requires |p| < 64 && k < 4 && |p| == 4 * w + k && j < 16
    ensures j == w ==> TailWords(p + [c])[j] == TailWords(p)[j] | Lane(c, k)
    ensures j != w ==> TailWords(p + [c])[j] == TailWords(p)[j]
  {
    var A := p + R.ZeroBytes(64 - |p|);
    assert TailWords(p) == R.Words(A);
    assert TailWords(p + [c]) == R.Words(A[|p| := c]) by {
      assert (p + [c]) + R.ZeroBytes(64 - |p + [c]|) == A[|p| := c];
    }
    if j == w {
      OrIntoWordHit(A, w, k, c);
    } else {
      OrIntoWordMiss(A, |p|, c, j);
    }
  }

  lemma OrIntoWordHit(A: seq<Byte>, w: nat, k: nat, c: Byte)
    requires |A| == 64 && k < 4 && 4 * w + k < 64 && A[4 * w + k] == 0
    ensures R.Words(A[4 * w + k := c])[w] == R.Words(A)[w] | Lane(c, k)
  {
    if k == 0 {
      HitLane0(A, w, k, c);
    } else if k == 1 {
      HitLane1(A, w, k, c);
    } else if k == 2 {
      HitLane2(A, w, k, c);
    } else {
      HitLane3(A, w, k, c);
    }
  }

  lemma HitLane0(A: seq<Byte>, w: nat, k: nat, c: Byte)
    requires |A| == 64 && k == 0 && 4 * w + k < 64 && A[4 * w + k] == 0
    ensures R.Words(A[4 * w + k := c])[w] == R.Words(A)[w] | Lane(c, k)
  {
    var i, B := 4 * w, A[4 * w + k := c];
    var a0, a1, a2, a3 := A[i], A[i + 1], A[i + 2], A[i + 3];
    assert R.Words(A)[w] == R.WordOf(a0, a1, a2, a3) by {
      R.WordsAt(A, w);
    }
    assert R.Words(B)[w] == R.WordOf(c, a1, a2, a3) by {
      R.WordsAt(B, w);
      assert B[i] == c && B[i + 1] == a1 && B[i + 2] == a2 && B[i + 3] == a3;
    }
    SetByte0(a0, a1, a2, a3, c);
  }

  lemma HitLane1(A: seq<Byte>, w: nat, k: nat, c: Byte)
    requires |A| == 64 && k == 1 && 4 * w + k < 64 && A[4 * w + k] == 0
    ensures R.Words(A[4 * w + k := c])[w] == R.Words(A)[w] | Lane(c, k)
  {
    var i, B := 4 * w, A[4 * w + k := c];
    var a0, a1, a2, a3 := A[i], A[i + 1], A[i + 2], A[i + 3];
    assert R.Words(A)[w] == R.WordOf(a0, a1, a2, a3) by {
      R.WordsAt(A, w);
    }
    assert R.Words(B)[w] == R.WordOf(a0, c, a2, a3) by {
      R.WordsAt(B, w);
      assert B[i] == a0 && B[i + 1] == c && B[i + 2] == a2 && B[i + 3] == a3;
    }
    SetByte1(a0, a1, a2, a3, c);
  }

  lemma HitLane2(A: seq<Byte>, w: nat, k: nat, c: Byte)
    requires |A| == 64 && k == 2 && 4 * w + k < 64 && A[4 * w + k] == 0
    ensures R.Words(A[4 * w + k := c])[w] == R.Words(A)[w] | Lane(c, k)
  {
    var i, B := 4 * w, A[4 * w + k := c];
    var a0, a1, a2, a3 := A[i], A[i + 1], A[i + 2], A[i + 3];
    assert R.Words(A)[w] == R.WordOf(a0, a1, a2, a3) by {
      R.WordsAt(A, w);
    }
    assert R.Words(B)[w] == R.WordOf(a0, a1, c, a3) by {
      R.WordsAt(B, w);
      assert B[i] == a0 && B[i + 1] == a1 && B[i + 2] == c && B[i + 3] == a3;
    }
    SetByte2(a0, a1, a2, a3, c);
  }

  lemma HitLane3(A: seq<Byte>, w: nat, k: nat, c: Byte)
    requires |A| == 64 && k == 3 && 4 * w + k < 64 && A[4 * w + k] == 0
    ensures R.Words(A[4 * w + k := c])[w] == R.Words(A)[w] | Lane(c, k)
  {
    var i, B := 4 * w, A[4 * w + k := c];
    var a0, a1, a2, a3 := A[i], A[i + 1], A[i + 2], A[i + 3];
    assert R.Words(A)[w] == R.WordOf(a0, a1, a2, a3) by {
      R.WordsAt(A, w);
    }
    assert R.Words(B)[w] == R.WordOf(a0, a1, a2, c) by {
      R.WordsAt(B, w);
      assert B[i] == a0 && B[i + 1] == a1 && B[i + 2] == a2 && B[i + 3] == c;
    }
    SetByte3(a0, a1, a2, a3, c);
  }

  lemma OrIntoWordMiss(A: seq<Byte>, t: nat, c: Byte, j: nat)
    requires |A| == 64 && t < 64 && j < 16 && (t < 4 * j || 4 * j + 4 <= t)
    ensures R.Words(A[t := c])[j] == R.Words(A)[j]
  {
    R.WordsAt(A, j);
    R.WordsAt(A[t := c], j);
  }

  /** Zeros written after the bytes of the tail do not change it. */
  lemma TailZeros(p: seq<Byte>, m: nat)
    requires |p| + m <= 64
    ensures TailWords(p + R.ZeroBytes(m)) == TailWords(p)
  {
    ZeroBytesAppend(m, 64 - |p| - m);
    assert p + R.ZeroBytes(m) + R.ZeroBytes(64 - |p + R.ZeroBytes(m)|) == p + R.ZeroBytes(64 - |p|);
  }

  /** The tail of only zeros: what script.js:689 leaves after clearing it. */
  lemma ZeroTail(j: nat)
    requires j < 16
    ensures TailWords([])[j] == 0
  {
    ZeroWordsAt(64, j);
    assert [] + R.ZeroBytes(64) == R.ZeroBytes(64);
  }

  lemma ZeroWordsAt(n: nat, j: nat)
    requires n % 4 == 0 && j < n / 4
    ensures R.Words(R.ZeroBytes(n))[j] == 0
  {
    R.WordsAt(R.ZeroBytes(n), j);
  }

  /** Word 14 of a tail whose first 56 bytes are x, set to w (script.js:691). */
  lemma LengthInTail(x: seq<Byte>, w: Word)
    requires |x| == 56
    ensures TailWords(x)[14 := w] == LengthBlock(x, w)
  {
    R.WordsAppend(x, R.ZeroBytes(8));
    R.WordsAppend(x, R.Encode32(w) + R.ZeroBytes(4));
    assert x + R.Encode32(w) + R.ZeroBytes(4) == x + (R.Encode32(w) + R.ZeroBytes(4));
    var e := R.Encode32(w);
    R.WordOfEncode32(w);
    assert R.Words(R.Encode32(w) + R.ZeroBytes(4)) == [w, 0] by {
      var y := R.Encode32(w) + R.ZeroBytes(4);
      assert y[4..] == R.ZeroBytes(4) && y[..4] == e;
    }
    assert R.Words(R.ZeroBytes(8)) == [0, 0] by {
      assert R.ZeroBytes(8)[4..] == R.ZeroBytes(4);
    }
  }

  /** The last block: 56 bytes, then the length word w and a zero word. */
  function LengthBlock(x: seq<Byte>, w: Word): (ws: seq<Word>)
    requires |x| == 56
    ensures |ws| == 16
  {
    R.Words(x + R.Encode32(w) + R.ZeroBytes(4))
  }

  lemma OneBlock(x: seq<Byte>)
    requires |x| == 64
    ensures R.Blocks(x) == [R.Words(x)]
  {
    assert x[..64] == x && x[64..] == [];
  }

  /** The first m whole blocks of s, as md51's first loop takes them (script.js:678-680). */
  function WholeBlocks(s: seq<Byte>, m: nat): (r: seq<seq<Word>>)
    requires 64 * m <= |s|
    ensures R.IsBlocks(r) && |r| == m
  {
    R.Blocks(s[..64 * m])
  }

  lemma NextWholeBlock(s: seq<Byte>, m: nat)
    requires 64 * m + 64 <= |s|
    ensures WholeBlocks(s, m + 1) == WholeBlocks(s, m) + [R.Words(s[64 * m..64 * m + 64])]
  {
    var i := 64 * m + 64;
    assert s[..i] == s[..64 * m] + s[64 * m..i];
    R.BlocksAppend(s[..64 * m], s[64 * m..i]);
    OneBlock(s[64 * m..i]);
  }

  /** The zero count of the padding when r characters follow q whole-block characters. */
  lemma PadZerosAfter(q: nat, r: nat)
    requires q % 64 == 0 && r < 64
    ensures R.PadZeros(q + r) == if r <= 55 then 55 - r else 119 - r
  {
    var m := q / 64;
    assert q == 64 * m;
    if r <= 55 {
      assert 55 - (q + r) == (55 - r) + 64 * (-m);
    } else {
      assert 55 - (q + r) == (119 - r) + 64 * (-m - 1);
    }
  }

  /** SourcePad split after q whole-block characters. */
  lemma SourcePadSplit(s: seq<Byte>, q: nat, z: nat)
    requires q <= |s| && z == R.PadZeros(|s|)
    ensures SourcePad(s) == s[..q] + (s[q..] + [0x80] + R.ZeroBytes(z) + R.Encode32(LengthWord(|s|)) + R.ZeroBytes(4))
  {
    assert s == s[..q] + s[q..];
  }

  lemma TwoBlocks(p: seq<Byte>, t1: seq<Byte>, t2: seq<Byte>)
    requires |p| % 64 == 0 && |t1| == 64 && |t2| == 64
    ensures R.Blocks(p + (t1 + t2)) == R.Blocks(p) + [R.Words(t1), R.Words(t2)]
  {
    R.BlocksAppend(p, t1 + t2);
    R.BlocksAppend(t1, t2);
    OneBlock(t1);
    OneBlock(t2);
  }

  lemma ZerosRegroup(u: seq<Byte>, x: nat, y: nat, e: seq<Byte>, f: seq<Byte>)
    ensures u + R.ZeroBytes(x + y) + e + f == (u + R.ZeroBytes(x)) + (R.ZeroBytes(y) + e + f)
  {
    ZeroBytesAppend(x, y);
  }

  /** Taking block m + 1 of s transforms the buffer once more. */
  lemma AbsorbNextBlock(s: seq<Byte>, m: nat)
    requires 64 * m + 64 <= |s|
    ensures R.Absorb(R.Init, WholeBlocks(s, m + 1))
         == R.Transform(R.Absorb(R.Init, WholeBlocks(s, m)), R.Words(s[64 * m..64 * m + 64]))
  {
    NextWholeBlock(s, m);
    R.AbsorbSnoc(R.Init, WholeBlocks(s, m), R.Words(s[64 * m..64 * m + 64]));
  }

  /**
   * Up to 55 characters after the last whole block: they, 0x80, zeros and the
   * length all fit in one final block (script.js:686-692 with i <= 55).
   */
  lemma PadBlocksShort(s: seq<Byte>, q: nat)
    requires q % 64 == 0 && q <= |s| && |s| - q <= 55
    ensures R.Blocks(SourcePad(s))
         == R.Blocks(s[..q]) + [LengthBlock(s[q..] + [0x80] + R.ZeroBytes(55 - (|s| - q)), LengthWord(|s|))]
  {
    var r := |s| - q;
    PadZerosAfter(q, r);
    SourcePadSplit(s, q, 55 - r);
    var x := s[q..] + [0x80] + R.ZeroBytes(55 - r);
    var t := x + R.Encode32(LengthWord(|s|)) + R.ZeroBytes(4);
    assert LengthBlock(x, LengthWord(|s|)) == R.Words(t);
    R.BlocksAppend(s[..q], t);
    OneBlock(t);
  }

  /**
   * 56 to 63 characters after the last whole block: 0x80 and zeros fill that
   * block, and the length goes into one more block of zeros
   * (script.js:687-690).
   */
  lemma PadBlocksLong(s: seq<Byte>, q: nat)
    requires q % 64 == 0 && q <= |s| && 55 < |s| - q < 64
    ensures R.Blocks(SourcePad(s))
         == R.Blocks(s[..q]) + [TailWords(s[q..] + [0x80]), LengthBlock(R.ZeroBytes(56), LengthWord(|s|))]
  {
    var r := |s| - q;
    PadZerosAfter(q, r);
    SourcePadSplit(s, q, 119 - r);
    var t1 := s[q..] + [0x80] + R.ZeroBytes(63 - r);
    var t2 := R.ZeroBytes(56) + R.Encode32(LengthWord(|s|)) + R.ZeroBytes(4);
    assert LengthBlock(R.ZeroBytes(56), LengthWord(|s|)) == R.Words(t2);
    ZerosRegroup(s[q..] + [0x80], 63 - r, 56, R.Encode32(LengthWord(|s|)), R.ZeroBytes(4));
    assert SourcePad(s) == s[..q] + (t1 + t2);
    assert TailWords(s[q..] + [0x80]) == R.Words(t1);
    TwoBlocks(s[..q], t1, t2);
  }

  /** The digest when at most 55 characters follow the whole blocks: one more block. */
  lemma DigestShort(s: seq<Byte>, m: nat)
    requires 64 * m <= |s| && |s| - 64 * m <= 55
    ensures SourceDigest(s)
         == R.Transform(R.Absorb(R.Init, WholeBlocks(s, m)),
                        LengthBlock(s[64 * m..] + [0x80] + R.ZeroBytes(55 - (|s| - 64 * m)), LengthWord(|s|)))
  {
    var q := 64 * m;
    PadBlocksShort(s, q);
    R.AbsorbSnoc(R.Init, R.Blocks(s[..q]), LengthBlock(s[q..] + [0x80] + R.ZeroBytes(55 - (|s| - q)), LengthWord(|s|)));
  }

  /** The digest when 56 to 63 characters follow the whole blocks: two more blocks. */
  lemma DigestLong(s: seq<Byte>, m: nat)
    requires 64 * m <= |s| && 55 < |s| - 64 * m < 64
    ensures SourceDigest(s)
         == R.Transform(R.Transform(R.Absorb(R.Init, WholeBlocks(s, m)), TailWords(s[64 * m..] + [0x80])),
                        LengthBlock(R.ZeroBytes(56), LengthWord(|s|)))
  {
    var q := 64 * m;
    var b := R.Blocks(s[..q]);
    var t1 := TailWords(s[q..] + [0x80]);
    var t2 := LengthBlock(R.ZeroBytes(56), LengthWord(|s|));
    PadBlocksLong(s, q);
    assert b + [t1, t2] == (b + [t1]) + [t2];
    R.AbsorbSnoc(R.Init, b, t1);
    R.AbsorbSnoc(R.Init, b + [t1], t2);
  }

  /**
   * The tail of md51 (script.js:682-686): sixteen zero words, each character
   * left over ORed into its byte lane (character i into lane i mod 4 of word
   * i div 4), then 0x80 after the last one.
   */
  method LoadTail(rest: seq<Byte>) returns (tail: array<Word>)
    requires |rest| < 64
    ensures fresh(tail) && tail.Length == 16
    ensures tail[..] == TailWords(rest + [0x80])
  {
    tail := new Word[16](_ => 0);
    forall j | 0 <= j < 16
      ensures tail[j] == TailWords([])[j]
    {
      ZeroTail(j);
    }
    assert tail[..] == TailWords([]);
    assert rest[..0] == [];
    var i := 0;
    while i < |rest|
      invariant 0 <= i <= |rest|
      invariant tail[..] == TailWords(rest[..i])
      modifies tail
    {
      var w, k := i / 4, i % 4;
      Quarter(i);
      assert rest[..i + 1] == rest[..i] + [rest[i]];
      OrIntoTail(rest[..i], rest[i], w, k);
      tail[w] := tail[w] | Lane(rest[i], k);
      i := i + 1;
    }
    assert i == |rest|;
    assert rest[..i] == rest;
    var w, k := i / 4, i % 4;
    Quarter(i);
    OrIntoTail(rest, 0x80, w, k);
    tail[w] := tail[w] | Lane(0x80, k);
  }

  /** Clearing the tail after it was taken (script.js:689) leaves the empty tail. */
  method ClearTail(tail: array<Word>)
    requires tail.Length == 16
    modifies tail
    ensures tail[..] == TailWords([])
  {
    var i := 0;
    while i < 16
      invariant 0 <= i <= 16
      invariant forall j :: 0 <= j < i ==> tail[j] == 0
    {
      tail[i] := 0;
      i := i + 1;
    }
    forall j | 0 <= j < 16
      ensures tail[j] == TailWords([])[j]
    {
      ZeroTail(j);
    }
  }

  /**
   * The end of md51 (script.js:687-692): with more than 55 characters left the
   * tail is taken as a block of its own and cleared; word 14 then gets the bit
   * length and the tail is taken last.
   */
  method FinalBlocks(state: array<Word>, tail: array<Word>, s: seq<Byte>, rest: seq<Byte>, ghost m: nat)
    requires state.Length == 4 && tail.Length == 16 && state != tail
    requires 64 * m <= |s| < 64 * m + 64 && rest == s[64 * m..]
    requires R.State(state[0], state[1], state[2], state[3]) == R.Absorb(R.Init, WholeBlocks(s, m))
    requires tail[..] == TailWords(rest + [0x80])
    modifies state, tail
    ensures R.State(state[0], state[1], state[2], state[3]) == SourceDigest(s)
  {
    var n := |s|;
    ghost var x: seq<Byte>;
    ghost var before: R.State;
    if |rest| > 55 {
      Md5Cycle(state, tail);
      before := R.State(state[0], state[1], state[2], state[3]);
      DigestLong(s, m);
      ClearTail(tail);
      x := R.ZeroBytes(56);
      TailZeros([], 56);
      assert [] + x == x;
    } else {
      x := rest + [0x80] + R.ZeroBytes(55 - |rest|);
      TailZeros(rest + [0x80], 55 - |rest|);
      before := R.State(state[0], state[1], state[2], state[3]);
      DigestShort(s, m);
    }
    assert tail[..] == TailWords(x);
    assert SourceDigest(s) == R.Transform(before, LengthBlock(x, LengthWord(n)));
    LengthInTail(x, LengthWord(n));
    tail[14] := LengthWord(n);
    Md5Cycle(state, tail);
  }

  /**
   * md51 (script.js:674-694): the buffer takes every whole 64-character block,
   * then the characters left over are ORed into a zeroed tail of 16 words,
   * followed by 0x80, and the last one or two blocks are taken.
   */
  method Md51(s: seq<Byte>) returns (state: array<Word>)
    ensures fresh(state) && state.Length == 4
    ensures R.State(state[0], state[1], state[2], state[3]) == SourceDigest(s)
  {
    // 1732584193, -271733879, -1732584194, 271733878 as 32-bit words
    state := new Word[4];
    state[0], state[1], state[2], state[3] := 0x67452301, 0xefcdab89, 0x98badcfe, 0x10325476;
    var i := 64;
    ghost var m: nat := 0;
    while i <= |s|
      invariant i == 64 * m + 64 && i <= |s| + 64
      invariant R.State(state[0], state[1], state[2], state[3]) == R.Absorb(R.Init, WholeBlocks(s, m))
      decreases |s| + 64 - i
    {
      var blk := Md5Blk(s[i - 64..i]);
      AbsorbNextBlock(s, m);
      Md5Cycle(state, blk);
      i := i + 64;
      m := m + 1;
    }
    assert i == 64 * m + 64 && |s| < i;
    var rest := s[i - 64..];
    assert rest == s[64 * m..];
    var tail := LoadTail(rest);
    FinalBlocks(state, tail, s, rest, m);
  }

  // rhex and hex (script.js:704-717): the output of section 3.5.

  /** The two nibbles that rhex takes for byte j of n are the high and low nibble of that byte. */
  lemma RhexByte(n: Word, j: nat)
    requires j < 4
    ensures ((n >> (((j as bv5) << 3) + 4)) & 0x0F) as Byte == R.Encode32(n)[j] >> 4
    ensures ((n >> ((j as bv5) << 3)) & 0x0F) as Byte == R.Encode32(n)[j] & 0xF
  {
    if j == 0 {
      assert ((j as bv5) << 3) == 0;
    } else if j == 1 {
      assert ((j as bv5) << 3) == 8;
    } else if j == 2 {
      assert ((j as bv5) << 3) == 16;
    } else {
      assert ((j as bv5) << 3) == 24;
    }
  }

  lemma RhexStep(e: seq<Byte>, j: nat, hi: Byte, lo: Byte)
    requires j < |e| && hi == e[j] >> 4 && lo == e[j] & 0xF
    ensures R.Hex(e[..j + 1]) == R.Hex(e[..j]) + [R.HexDigits[hi as int], R.HexDigits[lo as int]]
  {
    assert e[..j + 1] == e[..j] + [e[j]];
    R.HexAppend(e[..j], [e[j]]);
  }

  /**
   * rhex (script.js:704-710): the four bytes of n, lowest first, each as two
   * lowercase hexadecimal digits, high digit first.
   */
  method Rhex(n: Word) returns (s: string)
    ensures s == R.Hex(R.Encode32(n))
  {
    s := "";
    var j := 0;
    while j <= 3
      invariant 0 <= j <= 4
      invariant s == R.Hex(R.Encode32(n)[..j])
    {
      var sh := (j as bv5) << 3;
      // toString(16) of a value below 16 is one lowercase digit
      var hi, lo := ((n >> (sh + 4)) & 0x0F) as Byte, ((n >> sh) & 0x0F) as Byte;
      assert s + [R.HexDigits[hi as int], R.HexDigits[lo as int]] == R.Hex(R.Encode32(n)[..j + 1]) by {
        RhexByte(n, j);
        RhexStep(R.Encode32(n), j, hi, lo);
      }
      s := s + [R.HexDigits[hi as int], R.HexDigits[lo as int]];
      j := j + 1;
    }
    assert R.Encode32(n)[..j] == R.Encode32(n);
  }

  /** The bytes of a sequence of words, each word lowest byte first. */
  function WordsBytes(ws: seq<Word>): (bytes: seq<Byte>)
    ensures |bytes| == 4 * |ws|
  {
    if |ws| == 0 then [] else WordsBytes(ws[..|ws| - 1]) + R.Encode32(ws[|ws| - 1])
  }

  /** Reading the bytes back as words gives the words: WordsBytes inverts the reading of section 2. */
  lemma {:induction false} WordsOfWordsBytes(ws: seq<Word>)
    ensures R.Words(WordsBytes(ws)) == ws
    decreases |ws|
  {
    if |ws| > 0 {
      var init, last := ws[..|ws| - 1], ws[|ws| - 1];
      WordsOfWordsBytes(init);
      var e := R.Encode32(last);
      R.WordsAppend(WordsBytes(init), e);
      R.WordOfEncode32(last);
      assert e[4..] == [];
      assert R.Words(e) == [last];
      assert ws == init + [last];
    }
  }

  /** The digest buffer written out by section 3.5 is the bytes of its four words. */
  lemma EncodeIsWordsBytes(st: R.State)
    ensures R.Encode(st) == WordsBytes([st.a, st.b, st.c, st.d])
  {
    assert WordsBytes([st.a]) == R.Encode32(st.a) by {
      assert [st.a][..0] == [];
    }
    assert WordsBytes([st.a, st.b]) == R.Encode32(st.a) + R.Encode32(st.b) by {
      assert [st.a, st.b][..1] == [st.a];
    }
    assert WordsBytes([st.a, st.b, st.c]) == R.Encode32(st.a) + R.Encode32(st.b) + R.Encode32(st.c) by {
      assert [st.a, st.b, st.c][..2] == [st.a, st.b];
    }
    assert [st.a, st.b, st.c, st.d][..3] == [st.a, st.b, st.c];
  }

  /** `join('')`: the strings one after another. */
  function Concat(parts: seq<string>): string
  {
    if |parts| == 0 then [] else Concat(parts[..|parts| - 1]) + parts[|parts| - 1]
  }

  lemma {:induction false} ConcatRhex(ws: seq<Word>, parts: seq<string>)
    requires |parts| == |ws|
    requires forall j :: 0 <= j < |ws| ==> parts[j] == R.Hex(R.Encode32(ws[j]))
    ensures Concat(parts) == R.Hex(WordsBytes(ws))
    decreases |ws|
  {
    if |ws| > 0 {
      var n := |ws| - 1;
      ConcatRhex(ws[..n], parts[..n]);
      R.HexAppend(WordsBytes(ws[..n]), R.Encode32(ws[n]));
    }
  }

  /**
   * hex (script.js:712-717): every word of the buffer replaced by its rhex,
   * then all of them joined.  The source overwrites the numbers in x with
   * the strings; here the strings go into an array of their own.
   */
  method Hex(x: array<Word>) returns (r: string)
    ensures r == R.Hex(WordsBytes(x[..]))
  {
    var parts := new string[x.Length];
    var i := 0;
    while i < x.Length
      invariant 0 <= i <= x.Length
      invariant forall j :: 0 <= j < i ==> parts[j] == R.Hex(R.Encode32(x[j]))
    {
      parts[i] := Rhex(x[i]);
      i := i + 1;
    }
    ConcatRhex(x[..], parts[..]);
    r := Concat(parts[..]);
  }

  /** Below 2^29 characters the buffer md51 leaves is the MD5 digest of RFC 1321. */
  lemma SourceDigestIsDigest(m: seq<Byte>)
    requires |m| < 0x2000_0000
    ensures SourceDigest(m) == R.Digest(m)
  {
    SourcePadIsPad(m);
  }

  /**
   * md5 (script.js:568-720): the digest of the characters as 32 lowercase
   * hexadecimal digits.  Below 2^29 characters it is the MD5 of RFC 1321.
   */
  method Md5(s: seq<Byte>) returns (r: string)
    ensures r == R.Hex(R.Encode(SourceDigest(s)))
    ensures |s| < 0x2000_0000 ==> r == R.MD5(s)
  {
    var state := Md51(s);
    r := Hex(state);
    EncodeIsWordsBytes(SourceDigest(s));
    assert state[..] == [state[0], state[1], state[2], state[3]];
    if |s| < 0x2000_0000 {
      SourcePadIsPad(s);
    }
  }
}
