/**
 * The answer check of the challenge server (server.js): the configuration it
 * reads at start-up and the decision of the POST /submit handler.  Express,
 * logging and the listener are not modelled; Node's MD5 is a parameter.
 */
module Server {
  import opened JsText
  import opened Wrappers
  import X = XorCipher

  /** XOR_KEY (server.js:12). */
  const XorKey: CodeUnit := 77

  const DefaultFlag: JsString := Units("flag{IN_FRONT_OF_FOUNTAIN}")
  const DefaultTargetHash: JsString := Units("ee4d73d68a2e0bd60d0424bf6c7e40c5")

  datatype Config = Config(flag: JsString, targetHash: JsString)

  /** `process.env.NAME || fallback`: an unset or empty variable gives the fallback. */
  function EnvOr(value: Option<JsString>, fallback: JsString): (r: JsString)
    ensures r == fallback || (value == Some(r) && r != [])
    ensures fallback != [] ==> r != []
  {
    if value.Some? && value.value != [] then value.value else fallback
  }

  /** FLAG and MD5_XOR_HASH (server.js:7-8), from the environment variables of the same names. */
  function LoadConfig(envFlag: Option<JsString>, envHash: Option<JsString>): (cfg: Config)
    ensures cfg.flag != [] && cfg.targetHash != []
  {
    Config(EnvOr(envFlag, DefaultFlag), EnvOr(envHash, DefaultTargetHash))
  }

  /** A variable that is set and not empty is used as it is; otherwise the built-in default is. */
  lemma ConfigDefaults(envFlag: Option<JsString>, envHash: Option<JsString>)
    ensures envFlag.Some? && envFlag.value != [] ==> LoadConfig(envFlag, envHash).flag == envFlag.value
    ensures envFlag.None? || envFlag.value == [] ==> LoadConfig(envFlag, envHash).flag == DefaultFlag
    ensures envHash.Some? && envHash.value != [] ==> LoadConfig(envFlag, envHash).targetHash == envHash.value
    ensures envHash.None? || envHash.value == [] ==> LoadConfig(envFlag, envHash).targetHash == DefaultTargetHash
  {
  }

  /** The `plaintext` field of the JSON body: a string, or anything else (missing, null, a number, ...). */
  datatype Plaintext = Text(s: JsString) | NotText

  /** What the handler sends: the HTTP status and the JSON fields success, flag (when present) and message. */
  datatype Response = Response(status: nat, success: bool, flag: Option<JsString>, message: Message)

  /** The four fixed messages of the handler; MessageText gives the text of each. */
  datatype Message = InvalidMessage | SuccessMessage | MismatchMessage | ErrorMessage

  /** The `message` field as sent (server.js:43, 64, 70, 78). */
  function MessageText(m: Message): JsString
  {
    match m
    case InvalidMessage => Units("Invalid input. Please provide plaintext.")
    case SuccessMessage => Units("Congratulations! You found the correct plaintext!")
    case MismatchMessage => Units("Incorrect plaintext. Try again!")
    case ErrorMessage => Units("Server error occurred.")
  }
  /** The four texts differ (they have different lengths), so a client can tell the outcomes apart. */
  lemma MessageTextsDiffer(m1: Message, m2: Message)
    ensures MessageText(m1) == MessageText(m2) <==> m1 == m2
  {
    assert |MessageText(InvalidMessage)| == 40 && |MessageText(SuccessMessage)| == 49;
    assert |MessageText(MismatchMessage)| == 31 && |MessageText(ErrorMessage)| == 22;
  }


  /**
   * The POST /submit handler (server.js:36-81).  `md5` is Node's
   * createHash('md5') ... digest('hex'), None standing for a call that threw;
   * the only call that can throw is the hash.
   */
  function Submit(cfg: Config, md5: JsString -> Option<JsString>, plaintext: Plaintext): (r: Response)
    ensures r.status == 200 || r.status == 500
    ensures r.status == 500 <==> r.message == ErrorMessage
    ensures r.status == 500 ==> plaintext.Text? && plaintext.s != []
    ensures r.flag == (if r.success then Some(cfg.flag) else None)
  {
    if plaintext.NotText? || plaintext.s == [] then
      Response(200, false, None, InvalidMessage)
    else
      Verdict(cfg, md5(X.XorText(Trim(plaintext.s), XorKey)))
  }

  /** The answer once the digest is computed (server.js:59-79): a match, a mismatch, or the error of a throw. */
  function Verdict(cfg: Config, computed: Option<JsString>): (r: Response)
    ensures r.status == 500 <==> computed.None?
    ensures r.success <==> computed == Some(ToLower(cfg.targetHash))
    ensures r.flag == (if r.success then Some(cfg.flag) else None)
  {
    match computed
    case None => Response(500, false, None, ErrorMessage)
    case Some(digest) =>
      if digest == ToLower(cfg.targetHash) then Response(200, true, Some(cfg.flag), SuccessMessage)
      else Response(200, false, None, MismatchMessage)
  }

  /** A missing, non-string or empty plaintext is refused before anything is hashed. */
  lemma SubmitRejectsInvalid(cfg: Config, md5: JsString -> Option<JsString>, other: JsString -> Option<JsString>, plaintext: Plaintext)
    requires plaintext.NotText? || plaintext.s == []
    ensures Submit(cfg, md5, plaintext) == Response(200, false, None, InvalidMessage)
    ensures Submit(cfg, md5, plaintext) == Submit(cfg, other, plaintext)
  {
  }

  /** success holds exactly when the MD5 of the trimmed, XORed plaintext is the target digest in lowercase. */
  lemma SubmitSucceedsIff(cfg: Config, md5: JsString -> Option<JsString>, plaintext: Plaintext)
    ensures Submit(cfg, md5, plaintext).success
      <==> plaintext.Text? && plaintext.s != []
           && md5(X.XorText(Trim(plaintext.s), XorKey)) == Some(ToLower(cfg.targetHash))
  {
  }

  /** A non-empty plaintext whose trimmed, XORed form hashes to the target succeeds. */
  lemma SubmitSucceedsOn(cfg: Config, md5: JsString -> Option<JsString>, s: JsString)
    requires s != [] && md5(X.XorText(Trim(s), XorKey)) == Some(ToLower(cfg.targetHash))
    ensures Submit(cfg, md5, Text(s)).success
  {
  }

  /** The flag is sent with a success and with nothing else, and so is the congratulation. */
  lemma FlagOnlyOnSuccess(cfg: Config, md5: JsString -> Option<JsString>, plaintext: Plaintext)
    ensures Submit(cfg, md5, plaintext).flag.Some? <==> Submit(cfg, md5, plaintext).success
    ensures Submit(cfg, md5, plaintext).flag.Some? ==> Submit(cfg, md5, plaintext).flag.value == cfg.flag
    ensures Submit(cfg, md5, plaintext).message == SuccessMessage <==> Submit(cfg, md5, plaintext).success
    ensures Submit(cfg, md5, plaintext).success ==> Submit(cfg, md5, plaintext).status == 200
  {
  }


  /** A hash that throws gives status 500 and the generic message, never a mismatch. */
  lemma SubmitServerError(cfg: Config, md5: JsString -> Option<JsString>, s: JsString)
    requires s != [] && md5(X.XorText(Trim(s), XorKey)).None?
    ensures Submit(cfg, md5, Text(s)) == Response(500, false, None, ErrorMessage)
  {
  }

  /** White space around a non-empty submission never changes the outcome. */
  lemma SubmitIgnoresSurroundingSpace(cfg: Config, md5: JsString -> Option<JsString>, w1: JsString, s: JsString, w2: JsString)
    requires AllSpace(w1) && AllSpace(w2) && s != []
    ensures Submit(cfg, md5, Text(w1 + s + w2)) == Submit(cfg, md5, Text(s))
  {
    TrimPadded(w1, s, w2);
  }

  /**
   * A submission of white space only is not refused as invalid: it is trimmed
   * to the empty string, and the verdict is the one on the digest of that.
   */
  lemma SubmitBlank(cfg: Config, md5: JsString -> Option<JsString>, w: JsString)
    requires AllSpace(w) && w != []
    ensures Submit(cfg, md5, Text(w)) == Verdict(cfg, md5([]))
  {
    TrimEmpty(w);
  }

  /** The target digest is compared in lowercase, so its case in the configuration does not matter. */
  lemma SubmitTargetCase(flag: JsString, h1: JsString, h2: JsString, md5: JsString -> Option<JsString>, plaintext: Plaintext)
    requires ToLower(h1) == ToLower(h2)
    ensures Submit(Config(flag, h1), md5, plaintext) == Submit(Config(flag, h2), md5, plaintext)
  {
  }
}
