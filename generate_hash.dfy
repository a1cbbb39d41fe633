/**
 * The challenge generator (generate-hash.js): a plaintext, its XOR with 77,
 * the code units of that, and its MD5.  Node's MD5 is a parameter; the
 * console output and the command line are not modelled.
 */
module GenerateHash {
  import opened JsText
  import opened Wrappers
  import X = XorCipher
  import Server

  const XorKey: CodeUnit := 77

  /** The record generateChallenge returns (generate-hash.js:50). */
  datatype Challenge = Challenge(plaintext: JsString, xoredText: JsString, hash: JsString, xorBytes: seq<int>)

  /** `split('').map(char => char.charCodeAt(0))`: the code units as numbers. */
  function CharCodes(s: JsString): seq<int>
  {
    if |s| == 0 then [] else [s[0] as int] + CharCodes(s[1..])
  }

  /** generateChallenge (generate-hash.js:20-51). */
  function GenerateChallenge(md5: JsString -> JsString, plaintext: JsString): (r: Challenge)
  {
    var xoredText := X.XorText(plaintext, XorKey);
    var xorBytes := CharCodes(xoredText);
    var hash := md5(xoredText);
    Challenge(plaintext, xoredText, hash, xorBytes)
  }

  lemma {:induction false} CharCodesAt(s: JsString)
    ensures |CharCodes(s)| == |s|
    ensures forall i :: 0 <= i < |s| ==> CharCodes(s)[i] == s[i] as int
    decreases |s|
  {
    if |s| > 0 {
      CharCodesAt(s[1..]);
      assert forall i :: 1 <= i < |s| ==> s[i] == s[1..][i - 1];
    }
  }

  /**
   * The record echoes the plaintext; xoredText and xorBytes have its length,
   * entry i being code unit i XORed with 77; hash is the MD5 of xoredText.
   */
  lemma ChallengeFields(md5: JsString -> JsString, plaintext: JsString)
    ensures GenerateChallenge(md5, plaintext).plaintext == plaintext
    ensures |GenerateChallenge(md5, plaintext).xoredText| == |plaintext|
    ensures forall i :: 0 <= i < |plaintext| ==> GenerateChallenge(md5, plaintext).xoredText[i] == X.XorUnit(plaintext[i], 77)
    ensures |GenerateChallenge(md5, plaintext).xorBytes| == |plaintext|
    ensures forall i :: 0 <= i < |plaintext| ==> GenerateChallenge(md5, plaintext).xorBytes[i] == X.XorUnit(plaintext[i], 77) as int
    ensures GenerateChallenge(md5, plaintext).hash == md5(GenerateChallenge(md5, plaintext).xoredText)
  {
    CharCodesAt(X.XorText(plaintext, XorKey));
  }

  /** The verification step (generate-hash.js:44-48) recomputes the same digest, so it always reports a match. */
  lemma VerificationMatches(md5: JsString -> JsString, plaintext: JsString)
    ensures md5(X.XorText(plaintext, XorKey)) == GenerateChallenge(md5, plaintext).hash
  {
  }

  /** XORing xoredText with 77 again gives back the plaintext. */
  lemma ChallengeDecodes(md5: JsString -> JsString, plaintext: JsString)
    ensures X.XorText(GenerateChallenge(md5, plaintext).xoredText, XorKey) == plaintext
  {
    X.XorTextInvolutive(plaintext, XorKey);
  }

  /**
   * A server configured with the generated digest (as MD5_XOR_HASH, which the
   * generator prints) accepts the plaintext it was generated from, when the
   * plaintext has no white space to trim and the digest is lowercase
   * hexadecimal, as Node writes it.
   */
  lemma GeneratedChallengeAccepted(md5: JsString -> JsString, flag: JsString, plaintext: JsString)
    requires plaintext != [] && Trim(plaintext) == plaintext
    requires ToLower(md5(X.XorText(plaintext, XorKey))) == md5(X.XorText(plaintext, XorKey))
    ensures Server.Submit(Server.Config(flag, GenerateChallenge(md5, plaintext).hash), x => Some(md5(x)), Server.Text(plaintext)).success
  {
    var h := GenerateChallenge(md5, plaintext).hash;
    assert h == md5(X.XorText(plaintext, XorKey)) && ToLower(h) == h;
    Server.SubmitSucceedsOn(Server.Config(flag, h), x => Some(md5(x)), plaintext);
  }
}
