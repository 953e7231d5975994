/**
 * The RS256 token validator: parse, algorithm check, key lookup, signature
 * verification with registered-claims decoding, claim validation at the
 * current time, and custom-claims decoding, short-circuiting on the first
 * failure.
 *
 * The JOSE library's parser, its signature-verifying claim decoder and its
 * claim validator are collaborators given as function values (`Jose`), the
 * key lookup is the validator's `keyer`, and the clock is the `now`
 * parameter. Every function records the collaborators it consults, in
 * order, as a list of `Call`s; the contracts state the order and what each
 * consultation was given.
 */
module Validator {
  import opened Types
  import Utils

  /** The registered claims the library decodes from a verified token. */
  datatype RegisteredClaims = RegisteredClaims(
    issuer: string, subject: string, audience: seq<string>,
    expiry: Option<int>, notBefore: Option<int>, issuedAt: Option<int>)

  /** The expected claims: issuer, audience list and validation time. */
  datatype Expected = Expected(issuer: string, audience: seq<string>, time: Option<int>)
  {
    /** The same expectations, evaluated at `now`. */
    function WithTime(now: int): Expected
    {
      this.(time := Some(now))
    }
  }

  /** Custom claims, as decoded into the caller's destination. */
  type Payload = map<string, string>

  /** The JOSE library's operations the validator relies on. */
  datatype Jose = Jose(
    parseSigned: string -> Result<Token>,
    registeredClaims: (Token, Key) -> Result<RegisteredClaims>,
    validate: (RegisteredClaims, Expected) -> Outcome,
    customClaims: (Token, Key) -> Result<Payload>)

  datatype RS256Validator = RS256Validator(expectedClaims: Expected, keyer: Keyer)

  /** Audience comes first, issuer second; the audience becomes a one-element list. */
  function NewRS256Validator(audience: string, issuer: string, keyer: Keyer): (v: RS256Validator)
    ensures v.expectedClaims.issuer == issuer
    ensures v.expectedClaims.audience == [audience]
    ensures v.expectedClaims.time == None
    ensures v.keyer == keyer
  {
    RS256Validator(Expected(issuer, [audience], None), keyer)
  }

  /** The kinds of step the pipeline takes. */
  datatype Stage = Parse | Algorithm | Keying | Verify | Validation | Custom

  /** One step taken, with what it was given. */
  datatype Call =
    | ParseSigned(raw: string)
    | CheckAlgorithm(token: Token)
    | ConsultKeyer(token: Token)
    | DecodeRegistered(token: Token, key: Key)
    | ValidateClaims(claims: RegisteredClaims, expected: Expected)
    | DecodeCustom(token: Token, key: Key)
  {
    function Kind(): Stage
    {
      match this
      case ParseSigned(_) => Parse
      case CheckAlgorithm(_) => Algorithm
      case ConsultKeyer(_) => Keying
      case DecodeRegistered(_, _) => Verify
      case ValidateClaims(_, _) => Validation
      case DecodeCustom(_, _) => Custom
    }

    predicate HasToken()
    {
      CheckAlgorithm? || ConsultKeyer? || DecodeRegistered? || DecodeCustom?
    }
  }

  /** The fixed order of `ValidToken`. */
  const ValidTokenOrder: seq<Stage> := [Parse, Algorithm, Keying, Verify, Validation]

  /** The fixed order of `ValidClaims`: the keyer is consulted a second time. */
  const ValidClaimsOrder: seq<Stage> := ValidTokenOrder + [Keying, Custom]

  /** The steps taken are a prefix of `order`: none skipped, none repeated, none reordered. */
  predicate FollowsOrder(calls: seq<Call>, order: seq<Stage>)
  {
    |calls| <= |order| && forall i :: 0 <= i < |calls| ==> calls[i].Kind() == order[i]
  }

  /**
   * What each step may be given: the keyer only sees tokens whose first
   * header declares RS256, the decoders only keys the keyer returned for
   * that token, and validation only the expected claims stamped with `now`.
   */
  ghost predicate Admissible(v: RS256Validator, now: int, call: Call)
  {
    match call
    case ConsultKeyer(t) => Utils.ValidateTokenAlgo(t, RS256).Pass?
    case DecodeRegistered(t, k) => v.keyer(t) == Ok(k)
    case ValidateClaims(_, e) => e == v.expectedClaims.WithTime(now)
    case DecodeCustom(t, k) => v.keyer(t) == Ok(k)
    case _ => true
  }

  /** Every step taken works on the token parsed from `raw`. */
  ghost predicate OnParsedToken(jose: Jose, raw: string, calls: seq<Call>)
  {
    forall i :: 0 <= i < |calls| && calls[i].HasToken() ==> jose.parseSigned(raw) == Ok(calls[i].token)
  }

  /** `validToken`: the token, if it got as far as claim validation, and the error. */
  datatype Checked = Checked(token: Option<Token>, err: Outcome, calls: seq<Call>)

  function ValidToken(v: RS256Validator, jose: Jose, now: int, raw: string): (c: Checked)
    ensures FollowsOrder(c.calls, ValidTokenOrder) && c.calls != [] && c.calls[0] == ParseSigned(raw)
    ensures forall i :: 0 <= i < |c.calls| ==> Admissible(v, now, c.calls[i])
    ensures OnParsedToken(jose, raw, c.calls)
    ensures c.token.Some? <==> |c.calls| == |ValidTokenOrder|
    ensures c.token.None? ==> c.err.Fail?
    ensures c.token.Some? ==>
      && jose.parseSigned(raw) == Ok(c.token.value)
      && jose.registeredClaims(c.calls[3].token, c.calls[3].key) == Ok(c.calls[4].claims)
      && c.err == jose.validate(c.calls[4].claims, c.calls[4].expected)
  {
    match jose.parseSigned(raw)
    case Err(e) => Checked(None, Fail(e), [ParseSigned(raw)])
    case Ok(token) =>
      var algo := Utils.ValidateTokenAlgo(token, RS256);
      if algo.Fail? then
        Checked(None, algo, [ParseSigned(raw), CheckAlgorithm(token)])
      else match v.keyer(token)
        case Err(e) =>
          Checked(None, Fail(e), [ParseSigned(raw), CheckAlgorithm(token), ConsultKeyer(token)])
        case Ok(key) =>
          match jose.registeredClaims(token, key)
          case Err(e) =>
            Checked(None, Fail(e),
              [ParseSigned(raw), CheckAlgorithm(token), ConsultKeyer(token), DecodeRegistered(token, key)])
          case Ok(claims) =>
            var expected := v.expectedClaims.WithTime(now);
            Checked(Some(token), jose.validate(claims, expected),
              [ParseSigned(raw), CheckAlgorithm(token), ConsultKeyer(token), DecodeRegistered(token, key),
               ValidateClaims(claims, expected)])
  }

  /** The decoded custom claims, or the error, and the steps taken. */
  datatype Run = Run(result: Result<Payload>, calls: seq<Call>)

  /** `claims`: look the key up again and decode the custom claims with it. */
  function Claims(v: RS256Validator, jose: Jose, token: Token): (r: Run)
    ensures FollowsOrder(r.calls, [Keying, Custom]) && r.calls != [] && r.calls[0] == ConsultKeyer(token)
    ensures v.keyer(token).Err? ==> r.result == Err(v.keyer(token).error) && |r.calls| == 1
    ensures v.keyer(token).Ok? ==>
      r.calls == [ConsultKeyer(token), DecodeCustom(token, v.keyer(token).value)] &&
      r.result == jose.customClaims(token, v.keyer(token).value)
  {
    match v.keyer(token)
    case Err(e) => Run(Err(e), [ConsultKeyer(token)])
    case Ok(key) => Run(jose.customClaims(token, key), [ConsultKeyer(token), DecodeCustom(token, key)])
  }

  /**
   * `ValidClaims`: validate the token and, only if nothing failed, decode
   * its custom claims.
   */
  function ValidClaims(v: RS256Validator, jose: Jose, now: int, raw: string): (r: Run)
    ensures FollowsOrder(r.calls, ValidClaimsOrder) && r.calls != [] && r.calls[0] == ParseSigned(raw)
    ensures forall i :: 0 <= i < |r.calls| ==> Admissible(v, now, r.calls[i])
    ensures OnParsedToken(jose, raw, r.calls)
    ensures ValidToken(v, jose, now, raw).err.Fail? ==>
      r == Run(Err(ValidToken(v, jose, now, raw).err.error), ValidToken(v, jose, now, raw).calls)
    ensures |r.calls| > |ValidTokenOrder| ==> jose.validate(r.calls[4].claims, r.calls[4].expected).Pass?
    ensures r.result.Ok? ==>
      |r.calls| == |ValidClaimsOrder| && r.result == jose.customClaims(r.calls[6].token, r.calls[6].key)
  {
    var checked := ValidToken(v, jose, now, raw);
    if checked.err.Fail? then
      Run(Err(checked.err.error), checked.calls)
    else
      var token := checked.token.value;
      var claims := Claims(v, jose, token);
      var calls := checked.calls + claims.calls;
      Run(claims.result, calls)
  }

  /** A parse failure is returned before anything else runs. */
  lemma ParseFailureStops(v: RS256Validator, jose: Jose, now: int, raw: string)
    requires jose.parseSigned(raw).Err?
    ensures ValidClaims(v, jose, now, raw) == Run(Err(jose.parseSigned(raw).error), [ParseSigned(raw)])
  {
  }

  /**
   * A token whose first header does not declare RS256 (or that has no
   * header) is refused by the algorithm check, the keyer is never
   * consulted, and whichever keyer the validator holds makes no difference.
   */
  lemma AlgorithmCheckedBeforeKeyer(v: RS256Validator, jose: Jose, now: int, raw: string, other: Keyer)
    requires jose.parseSigned(raw).Ok?
    requires Utils.ValidateTokenAlgo(jose.parseSigned(raw).value, RS256).Fail?
    ensures var token := jose.parseSigned(raw).value;
      ValidClaims(v, jose, now, raw) ==
        Run(Err(Utils.ValidateTokenAlgo(token, RS256).error), [ParseSigned(raw), CheckAlgorithm(token)])
    ensures ValidClaims(v.(keyer := other), jose, now, raw) == ValidClaims(v, jose, now, raw)
  {
  }

  /** A keyer error is returned unchanged and nothing is decoded. */
  lemma KeyerErrorPropagates(v: RS256Validator, jose: Jose, now: int, raw: string)
    requires jose.parseSigned(raw).Ok?
    requires var token := jose.parseSigned(raw).value;
      Utils.ValidateTokenAlgo(token, RS256).Pass? && v.keyer(token).Err?
    ensures var token := jose.parseSigned(raw).value;
      ValidClaims(v, jose, now, raw) ==
        Run(Err(v.keyer(token).error), [ParseSigned(raw), CheckAlgorithm(token), ConsultKeyer(token)])
  {
  }

  /** A signature or decoding failure of the registered claims stops before validation. */
  lemma VerifyFailureStops(v: RS256Validator, jose: Jose, now: int, raw: string)
    requires jose.parseSigned(raw).Ok?
    requires var token := jose.parseSigned(raw).value;
      Utils.ValidateTokenAlgo(token, RS256).Pass? && v.keyer(token).Ok? &&
      jose.registeredClaims(token, v.keyer(token).value).Err?
    ensures var token := jose.parseSigned(raw).value;
      var key := v.keyer(token).value;
      ValidClaims(v, jose, now, raw) ==
        Run(Err(jose.registeredClaims(token, key).error),
            [ParseSigned(raw), CheckAlgorithm(token), ConsultKeyer(token), DecodeRegistered(token, key)])
  {
  }

  /**
   * A claim validation failure: `ValidToken` hands back the token together
   * with the error, and `ValidClaims` stops without decoding custom claims.
   */
  lemma ValidationFailureStops(v: RS256Validator, jose: Jose, now: int, raw: string)
    requires jose.parseSigned(raw).Ok?
    requires var token := jose.parseSigned(raw).value;
      Utils.ValidateTokenAlgo(token, RS256).Pass? && v.keyer(token).Ok? &&
      jose.registeredClaims(token, v.keyer(token).value).Ok? &&
      jose.validate(jose.registeredClaims(token, v.keyer(token).value).value, v.expectedClaims.WithTime(now)).Fail?
    ensures var c := ValidToken(v, jose, now, raw);
      c.token == Some(jose.parseSigned(raw).value) && c.err.Fail?
    ensures var r := ValidClaims(v, jose, now, raw);
      r.result == Err(ValidToken(v, jose, now, raw).err.error) && |r.calls| == |ValidTokenOrder|
  {
  }

  /**
   * When every step succeeds the keyer is consulted a second time and the
   * result is the custom claims decoded with that key.
   */
  lemma SuccessDecodesCustomClaims(v: RS256Validator, jose: Jose, now: int, raw: string)
    requires jose.parseSigned(raw).Ok?
    requires var token := jose.parseSigned(raw).value;
      Utils.ValidateTokenAlgo(token, RS256).Pass? && v.keyer(token).Ok? &&
      jose.registeredClaims(token, v.keyer(token).value).Ok? &&
      jose.validate(jose.registeredClaims(token, v.keyer(token).value).value, v.expectedClaims.WithTime(now)).Pass?
    ensures var token := jose.parseSigned(raw).value;
      var key := v.keyer(token).value;
      var claims := jose.registeredClaims(token, key).value;
      ValidClaims(v, jose, now, raw) ==
        Run(jose.customClaims(token, key),
            [ParseSigned(raw), CheckAlgorithm(token), ConsultKeyer(token), DecodeRegistered(token, key),
             ValidateClaims(claims, v.expectedClaims.WithTime(now)), ConsultKeyer(token), DecodeCustom(token, key)])
  {
  }

  /** The registered claims of the package's test token. */
  const TestClaims: RegisteredClaims := RegisteredClaims(
    "https://id.example.com/", "abcdef0123456789", ["https://api.example.com"],
    Some(1993180998), None, Some(1522994598))

  /**
   * A stand-in for the library's claim check, enough for the test token:
   * the issuer must be equal, the expected audience must be listed, and
   * the validation time must come before the expiry.
   */
  function TestValidate(claims: RegisteredClaims, expected: Expected): (r: Outcome)
    ensures r.Pass? ==> claims.issuer == expected.issuer
    ensures r.Pass? ==> forall a :: a in expected.audience ==> a in claims.audience
  {
    if claims.issuer != expected.issuer then Fail(LibraryError("validation failed, invalid issuer claim (iss)"))
    else if exists a :: a in expected.audience && a !in claims.audience then
      Fail(LibraryError("validation failed, invalid audience claim (aud)"))
    else if expected.time.Some? && claims.expiry.Some? && expected.time.value >= claims.expiry.value then
      Fail(LibraryError("validation failed, token is expired (exp)"))
    else Pass
  }

  /** The library as the package's test sees it, decoding the username claim. */
  function TestJose(token: Token): Jose
  {
    Jose(_ => Ok(token), (_, _) => Ok(TestClaims), TestValidate,
         (_, _) => Ok(map["https://claims.example.com/username" := "johndoe"]))
  }

  /**
   * The package's own success case: a validator built with audience
   * "https://api.example.com" first and issuer "https://id.example.com/"
   * second, around a keyer that always supplies the test key, accepts the
   * signed RS256 test token before its expiry and hands back the username
   * claim "johndoe".
   */
  lemma UsernameClaimDecoded(raw: string, now: int, token: Token, key: Key)
    requires token.headers != [] && token.headers[0].algorithm == RS256
    requires now < 1993180998
    ensures var v := NewRS256Validator("https://api.example.com", "https://id.example.com/", _ => Ok(key));
      ValidClaims(v, TestJose(token), now, raw).result == Ok(map["https://claims.example.com/username" := "johndoe"])
  {
  }

  /**
   * The order of the constructor's arguments matters: with issuer and
   * audience swapped the same token is refused by claim validation and no
   * custom claims are decoded.
   */
  lemma SwappedArgumentsRefuseTestToken(raw: string, now: int, token: Token, key: Key)
    requires token.headers != [] && token.headers[0].algorithm == RS256
    ensures var v := NewRS256Validator("https://id.example.com/", "https://api.example.com", _ => Ok(key));
      var r := ValidClaims(v, TestJose(token), now, raw);
      r.result.Err? && |r.calls| == |ValidTokenOrder|
  {
  }
}
