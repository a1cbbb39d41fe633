/**
 * The three obfuscation helpers of the terminal (script.js:110-127): rot13,
 * reverseString and xorEncode.  rot13 and reverseString are single
 * expressions and become functions; xorEncode folds the string in a loop and
 * becomes a method proved against a fold over the code units.
 */
module TextTransforms {
  import opened JsText
  import opened XorCipher

  predicate IsUpper(c: CodeUnit) { 0x41 <= c <= 0x5A }
  predicate IsLower(c: CodeUnit) { 0x61 <= c <= 0x7A }
  predicate IsLetter(c: CodeUnit) { IsUpper(c) || IsLower(c) }

  /**
   * The replacement rot13 makes for one code unit: a letter matched by
   * /[a-zA-Z]/ moves 13 places on, wrapping back 26 places once it passes
   * 'Z' (90) or 'z' (122); anything else is left as it is.
   */
  function Rot13Unit(c: CodeUnit): (r: CodeUnit)
    ensures IsUpper(c) ==> IsUpper(r) && r != c
    ensures IsLower(c) ==> IsLower(r) && r != c
    ensures !IsLetter(c) ==> r == c
  {
    if !IsLetter(c) then c
    else
      var limit := if c <= 0x5A then 90 else 122;
      var d := c + 13;
      if limit >= d then d else d - 26
  }

  /** The same letters, as the textbook rotation of the alphabet by 13 places. */
  lemma Rot13UnitIsRotation(c: CodeUnit)
    ensures IsUpper(c) ==> Rot13Unit(c) == (c - 0x41 + 13) % 26 + 0x41
    ensures IsLower(c) ==> Rot13Unit(c) == (c - 0x61 + 13) % 26 + 0x61
  {
  }

  lemma Rot13UnitInvolutive(c: CodeUnit)
    ensures Rot13Unit(Rot13Unit(c)) == c
  {
  }

  /** rot13 (script.js:111-115): every code unit replaced by its rotation. */
  function Rot13(s: JsString): (r: JsString)
    ensures |r| == |s|
    ensures forall i :: 0 <= i < |s| ==> r[i] == Rot13Unit(s[i])
  {
    seq(|s|, i requires 0 <= i < |s| => Rot13Unit(s[i]))
  }

  /** rot13 undoes itself. */
  lemma Rot13Involutive(s: JsString)
    ensures Rot13(Rot13(s)) == s
  {
    forall i | 0 <= i < |s|
      ensures Rot13(Rot13(s))[i] == s[i]
    {
      Rot13UnitInvolutive(s[i]);
    }
  }

  /** reverseString (script.js:117-119): split into code units, reverse, join. */
  function Reverse(s: JsString): (r: JsString)
    ensures |r| == |s|
    ensures forall i :: 0 <= i < |s| ==> r[i] == s[|s| - 1 - i]
  {
    if |s| == 0 then [] else Reverse(s[1..]) + [s[0]]
  }

  /** reverseString undoes itself. */
  lemma ReverseInvolutive(s: JsString)
    ensures Reverse(Reverse(s)) == s
  {
  }

  /** Reversal turns a concatenation around. */
  lemma ReverseAppend(a: JsString, b: JsString)
    ensures Reverse(a + b) == Reverse(b) + Reverse(a)
  {
  }

  // xorEncode: `result ^= str.charCodeAt(i) ^ key`, on 32-bit patterns.

  const TwoTo32: nat := 0x1_0000_0000

  /** The bit pattern ToInt32 gives an integer key: its value modulo 2^32. */
  function KeyBits(key: int): (k: nat)
    ensures k < TwoTo32
  {
    key % TwoTo32
  }

  /** The signed reading of a 32-bit pattern, the number a JavaScript bitwise operator returns. */
  function Int32(bits: nat): (v: int)
    requires bits < TwoTo32
    ensures -0x8000_0000 <= v < 0x8000_0000
    ensures v % TwoTo32 == bits
  {
    if bits < 0x8000_0000 then bits else bits - TwoTo32
  }

  /** The pattern xorEncode holds after the code units of s: each XORed with k, then into the running result. */
  function XorFold(s: JsString, k: nat): nat
  {
    if |s| == 0 then 0 else Xor(XorFold(s[..|s| - 1], k), Xor(s[|s| - 1], k))
  }

  /** The XOR of all the code units of s. */
  function XorAll(s: JsString): nat
  {
    if |s| == 0 then 0 else Xor(XorAll(s[..|s| - 1]), s[|s| - 1])
  }

  /** The part the key leaves in the fold: it cancels in pairs. */
  function KeyPart(n: nat, k: nat): nat
  {
    if n % 2 == 1 then k else 0
  }

  lemma {:induction false} XorFoldBelow(s: JsString, k: nat)
    requires k < TwoTo32
    ensures XorFold(s, k) < TwoTo32
    decreases |s|
  {
    if |s| > 0 {
      XorFoldBelow(s[..|s| - 1], k);
      Pow2ThirtyTwo();
      XorBelow(s[|s| - 1], k, 32);
      XorBelow(XorFold(s[..|s| - 1], k), Xor(s[|s| - 1], k), 32);
    }
  }

  /**
   * The key enters the result once for each code unit, so it cancels out on a
   * string of even length: xorEncode is the XOR of the code units, XORed with
   * the key when the length is odd.
   */
  lemma {:induction false} XorFoldClosedForm(s: JsString, k: nat)
    ensures XorFold(s, k) == Xor(XorAll(s), KeyPart(|s|, k))
    decreases |s|
  {
    if |s| == 0 {
      XorZero(0);
    } else {
      var p, c := s[..|s| - 1], s[|s| - 1];
      var a, e := XorAll(p), KeyPart(|p|, k);
      XorFoldClosedForm(p, k);
      assert Xor(e, k) == KeyPart(|s|, k) by {
        XorZero(k);
        XorSelf(k);
      }
      calc {
        XorFold(s, k);
        Xor(Xor(a, e), Xor(c, k));
        { XorAssociates(a, e, Xor(c, k)); }
        Xor(a, Xor(e, Xor(c, k)));
        { XorAssociates(e, c, k); }
        Xor(a, Xor(Xor(e, c), k));
        { XorCommutes(e, c); }
        Xor(a, Xor(Xor(c, e), k));
        { XorAssociates(c, e, k); }
        Xor(a, Xor(c, Xor(e, k)));
        { XorAssociates(a, c, Xor(e, k)); }
        Xor(Xor(a, c), KeyPart(|s|, k));
      }
    }
  }

  /** On a string of even length the key makes no difference at all. */
  lemma XorEncodeEvenIgnoresKey(s: JsString, k1: nat, k2: nat)
    requires |s| % 2 == 0
    ensures XorFold(s, k1) == XorFold(s, k2)
  {
    XorFoldClosedForm(s, k1);
    XorFoldClosedForm(s, k2);
  }

  /** xorEncode (script.js:121-127). */
  method XorEncode(str: JsString, key: int) returns (result: int)
    ensures XorFold(str, KeyBits(key)) < TwoTo32 && result == Int32(XorFold(str, KeyBits(key)))
  {
    var k := KeyBits(key);
    var bits: nat := 0;
    var i := 0;
    while i < |str|
      invariant 0 <= i <= |str|
      invariant bits == XorFold(str[..i], k)
    {
      assert str[..i + 1][..i] == str[..i];
      bits := Xor(bits, Xor(str[i], k));
      i := i + 1;
    }
    assert str[..|str|] == str;
    XorFoldBelow(str, k);
    result := Int32(bits);
  }
}
