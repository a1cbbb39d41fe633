/**
 * xorText, the one cipher of the challenge, written out identically in
 * server.js:19-23, analyze-hashes.js:11-15 and generate-hash.js:10-14: every
 * code unit of the text XORed with the key.
 */
module XorCipher {
  import opened JsText

  /** The bitwise XOR of two non-negative integers, one binary digit at a time from the lowest. */
  function Xor(a: nat, b: nat): nat
    decreases a + b
  {
    if a == 0 && b == 0 then 0 else 2 * Xor(a / 2, b / 2) + (if a % 2 == b % 2 then 0 else 1)
  }

  lemma XorStep(a: nat, b: nat)
    ensures Xor(a, b) == 2 * Xor(a / 2, b / 2) + (if a % 2 == b % 2 then 0 else 1)
  {
  }

  lemma Halves(q: nat, bit: nat)
    requires bit < 2
    ensures (2 * q + bit) / 2 == q && (2 * q + bit) % 2 == bit
  {
  }

  /** XOR with b undoes XOR with b. */
  lemma {:induction false} XorTwice(a: nat, b: nat)
    ensures Xor(Xor(a, b), b) == a
    decreases a + b
  {
    if a != 0 || b != 0 {
      var q := Xor(a / 2, b / 2);
      var bit := if a % 2 == b % 2 then 0 else 1;
      XorTwice(a / 2, b / 2);
      XorStep(a, b);
      Halves(q, bit);
      XorStep(2 * q + bit, b);
      Halves(a / 2, a % 2);
    }
  }

  function Pow2(n: nat): nat
  {
    if n == 0 then 1 else 2 * Pow2(n - 1)
  }

  lemma Pow2Sixteen()
    ensures Pow2(16) == 0x1_0000
  {
    assert Pow2(2) == 4;
    assert Pow2(4) == 16;
    assert Pow2(6) == 64;
    assert Pow2(8) == 256;
    assert Pow2(10) == 1024;
    assert Pow2(12) == 4096;
    assert Pow2(14) == 16384;
  }

  /** XOR of two n-bit numbers has n bits. */
  lemma {:induction false} Pow2Plus(m: nat, n: nat)
    ensures Pow2(m + n) == Pow2(m) * Pow2(n)
    decreases n
  {
    if n > 0 {
      Pow2Plus(m, n - 1);
    }
  }

  lemma Pow2ThirtyTwo()
    ensures Pow2(32) == 0x1_0000_0000
  {
    Pow2Sixteen();
    Pow2Plus(16, 16);
  }

  lemma {:induction false} XorBelow(a: nat, b: nat, n: nat)
    requires a < Pow2(n) && b < Pow2(n)
    ensures Xor(a, b) < Pow2(n)
    decreases n
  {
    if a != 0 || b != 0 {
      XorBelow(a / 2, b / 2, n - 1);
    }
  }

  lemma {:induction false} XorZero(a: nat)
    ensures Xor(a, 0) == a && Xor(0, a) == a
    decreases a
  {
    if a != 0 {
      XorZero(a / 2);
      XorStep(a, 0);
      XorStep(0, a);
    }
  }

  lemma {:induction false} XorSelf(a: nat)
    ensures Xor(a, a) == 0
    decreases a
  {
    if a != 0 {
      XorSelf(a / 2);
      XorStep(a, a);
    }
  }

  lemma {:induction false} XorCommutes(a: nat, b: nat)
    ensures Xor(a, b) == Xor(b, a)
    decreases a + b
  {
    if a != 0 || b != 0 {
      XorCommutes(a / 2, b / 2);
      XorStep(a, b);
      XorStep(b, a);
    }
  }

  lemma {:induction false} XorAssociates(a: nat, b: nat, c: nat)
    ensures Xor(Xor(a, b), c) == Xor(a, Xor(b, c))
    decreases a + b + c
  {
    if a != 0 || b != 0 || c != 0 {
      XorAssociates(a / 2, b / 2, c / 2);
      var ab, bc := Xor(a, b), Xor(b, c);
      XorStep(a, b);
      XorStep(b, c);
      Halves(Xor(a / 2, b / 2), if a % 2 == b % 2 then 0 else 1);
      Halves(Xor(b / 2, c / 2), if b % 2 == c % 2 then 0 else 1);
      XorStep(ab, c);
      XorStep(a, bc);
    }
  }

  /** String.fromCharCode(c ^ key) for one code unit c. */
  function XorUnit(c: CodeUnit, key: CodeUnit): (r: CodeUnit)
    ensures Xor(r, key) == c
  {
    Pow2Sixteen();
    XorBelow(c, key, 16);
    XorTwice(c, key);
    Xor(c, key)
  }

  /**
   * `charCodeAt(0) ^ key` works on ToInt32(key) and String.fromCharCode keeps
   * the low sixteen bits of the result, so the key enters as its low sixteen
   * bits; every caller passes 77.  The text is split(''), each code unit c
   * becomes String.fromCharCode(c ^ key), and the pieces are joined again.
   */
  function XorText(text: JsString, key: CodeUnit): (r: JsString)
    ensures |r| == |text|
    ensures forall i :: 0 <= i < |text| ==> r[i] == XorUnit(text[i], key)
  {
    if |text| == 0 then []
    else
      var rest := XorText(text[1..], key);
      [XorUnit(text[0], key)] + rest
  }

  /** XOR with a fixed key undoes itself. */
  lemma XorTextInvolutive(text: JsString, key: CodeUnit)
    ensures XorText(XorText(text, key), key) == text
  {
    var r := XorText(XorText(text, key), key);
    forall i | 0 <= i < |text|
      ensures r[i] == text[i]
    {
      assert r[i] == XorUnit(XorUnit(text[i], key), key);
    }
  }

  /** Different texts never encrypt to the same text. */
  lemma XorTextInjective(a: JsString, b: JsString, key: CodeUnit)
    requires XorText(a, key) == XorText(b, key)
    ensures a == b
  {
    XorTextInvolutive(a, key);
    XorTextInvolutive(b, key);
  }
}
