/**
 * The offline hash analysis (analyze-hashes.js): each intercepted digest is
 * tried against five known phrases, and the meeting place is reported when
 * the digest named Hash-Echo matches.  Node's MD5 is a parameter; the
 * console output is not modelled.
 */
module AnalyzeHashes {
  import opened JsText
  import X = XorCipher

  const XorKey: CodeUnit := 77

  /** testPhrases (analyze-hashes.js:28-34). */
  const TestPhrases: seq<JsString> := [
    Units("RANDOM PHRASE ONE"),
    Units("MEETING AT LIBRARY"),
    Units("BY THE MAIN GATE"),
    Units("COFFEE SHOP CORNER"),
    Units("IN FRONT OF FOUNTAIN")
  ]

  /** A phrase matches a digest when the MD5 of the phrase XORed with 77 is that digest in lowercase. */
  predicate PhraseMatches(md5: JsString -> JsString, phrase: JsString, hashValue: JsString)
  {
    md5(X.XorText(phrase, XorKey)) == ToLower(hashValue)
  }

  predicate AnyPhraseMatches(md5: JsString -> JsString, hashValue: JsString)
  {
    exists k :: 0 <= k < |TestPhrases| && PhraseMatches(md5, TestPhrases[k], hashValue)
  }

  /**
   * analyzeHash (analyze-hashes.js:21-56): found is set, and never cleared,
   * by each phrase that matches; hashName only appears in the log.
   */
  method AnalyzeHash(md5: JsString -> JsString, hashValue: JsString, hashName: JsString) returns (found: bool)
    ensures found <==> AnyPhraseMatches(md5, hashValue)
  {
    var phrases := TestPhrases;
    found := false;
    var i := 0;
    while i < |phrases|
      invariant 0 <= i <= |phrases|
      invariant found <==> exists k :: 0 <= k < i && PhraseMatches(md5, phrases[k], hashValue)
    {
      var xored := X.XorText(phrases[i], XorKey);
      var computed := md5(xored);
      if computed == ToLower(hashValue) {
        found := true;
      }
      i := i + 1;
    }
  }

  /** Only the digest under test is lowercased, so its case never matters. */
  lemma AnalyzeIgnoresCase(md5: JsString -> JsString, h1: JsString, h2: JsString)
    requires ToLower(h1) == ToLower(h2)
    ensures AnyPhraseMatches(md5, h1) <==> AnyPhraseMatches(md5, h2)
  {
    assert forall k :: 0 <= k < |TestPhrases| ==> (PhraseMatches(md5, TestPhrases[k], h1) <==> PhraseMatches(md5, TestPhrases[k], h2));
  }

  datatype Intercepted = Intercepted(name: JsString, value: JsString)

  const EchoName: JsString := Units("Hash-Echo")
  const RealLocation: JsString := Units("IN FRONT OF FOUNTAIN")

  /** interceptedHashes (analyze-hashes.js:63-69). */
  const InterceptedHashes: seq<Intercepted> := [
    Intercepted(Units("Hash-Alpha"), Units("de73807b41656e73eb3938c56872167d")),
    Intercepted(Units("Hash-Beta"), Units("9fda2b69d18ca58393fd0c6c63fa6c9b")),
    Intercepted(Units("Hash-Gamma"), Units("633d5b9956e790957a51f32f480d822b")),
    Intercepted(Units("Hash-Delta"), Units("2ce9906047c7286fd9ba7d6cdcd3e21b")),
    Intercepted(EchoName, Units("ee4d73d68a2e0bd60d0424bf6c7e40c5"))
  ]

  /** Of the five intercepted digests only the last is named Hash-Echo. */
  lemma OnlyLastIsEcho()
    ensures forall k :: 0 <= k < |InterceptedHashes| ==> (InterceptedHashes[k].name == EchoName <==> k == 4)
  {
    var h := InterceptedHashes;
    assert h[0].name[5] != EchoName[5];
    assert h[1].name[5] != EchoName[5];
    assert h[2].name[5] != EchoName[5];
    assert h[3].name[5] != EchoName[5];
  }

  /**
   * The loop of main (analyze-hashes.js:71-80): the real location is found
   * exactly when an entry named Hash-Echo matches a phrase, and it is then
   * "IN FRONT OF FOUNTAIN".
   */
  method FindRealLocation(md5: JsString -> JsString) returns (realLocationFound: bool, realLocation: JsString)
    ensures realLocationFound <==> exists k :: 0 <= k < |InterceptedHashes| && InterceptedHashes[k].name == EchoName && AnyPhraseMatches(md5, InterceptedHashes[k].value)
    ensures realLocation == if realLocationFound then RealLocation else []
  {
    var hashes := InterceptedHashes;
    realLocationFound := false;
    realLocation := [];
    var i := 0;
    while i < |hashes|
      invariant 0 <= i <= |hashes|
      invariant realLocationFound <==> exists k :: 0 <= k < i && hashes[k].name == EchoName && AnyPhraseMatches(md5, hashes[k].value)
      invariant realLocation == if realLocationFound then RealLocation else []
    {
      var isReal := AnalyzeHash(md5, hashes[i].value, hashes[i].name);
      if isReal && hashes[i].name == EchoName {
        realLocationFound := true;
        realLocation := RealLocation;
      }
      i := i + 1;
    }
  }

  /** So the outcome depends on the Hash-Echo digest alone. */
  lemma RealLocationIsEcho(md5: JsString -> JsString)
    ensures (exists k :: 0 <= k < |InterceptedHashes| && InterceptedHashes[k].name == EchoName && AnyPhraseMatches(md5, InterceptedHashes[k].value))
      <==> AnyPhraseMatches(md5, InterceptedHashes[4].value)
  {
    OnlyLastIsEcho();
  }
}
