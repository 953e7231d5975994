/**
 * Extraction of the bearer token from the value of an HTTP Authorization
 * header. Header values are strings of bytes: one `char` stands for one
 * byte, so lengths and slices are byte lengths and byte slices.
 */
module HttpAuth {
  import opened Types

  /** ASCII lower-casing of one byte; other bytes are unchanged. */
  function Lower(c: char): char
  {
    if 'A' <= c <= 'Z' then (c as int + 32) as char else c
  }

  /**
   * Case-insensitive equality. Against the all-ASCII scheme below this is
   * exactly what Unicode simple case folding decides: no non-ASCII rune
   * folds to any of its bytes.
   */
  predicate EqualFold(a: string, b: string)
  {
    |a| == |b| && forall i :: 0 <= i < |a| ==> Lower(a[i]) == Lower(b[i])
  }

  /** The authentication scheme with its separating space (seven bytes). */
  const Scheme: string := "bearer "

  /** The credential after a case-insensitive "Bearer " prefix, if non-empty. */
  function BearerToken(authorization: string): (r: Result<string>)
    ensures r.Ok? <==> |authorization| > |Scheme| && EqualFold(authorization[..|Scheme|], Scheme)
    ensures r.Ok? ==> r.value != "" && authorization == authorization[..|Scheme|] + r.value
    ensures r.Err? ==> r.error == TokenNotFound
  {
    if |authorization| > 7 && EqualFold(authorization[0..7], Scheme) then
      assert authorization == authorization[..7] + authorization[7..];
      Ok(authorization[7..])
    else
      Err(TokenNotFound)
  }

  /**
   * Round trip: any casing of "Bearer " followed by a non-empty token
   * yields that token.
   */
  lemma BearerTokenRoundTrip(prefix: string, token: string)
    requires EqualFold(prefix, Scheme) && token != ""
    ensures BearerToken(prefix + token) == Ok(token)
  {
  }

  /** The usual spelling of the header is one of those casings. */
  lemma CapitalisedSchemeFolds()
    ensures EqualFold("Bearer ", Scheme)
  {
  }

  /** No credential: an empty header, the bare scheme, or another scheme. */
  lemma NoBearerToken()
    ensures BearerToken("") == Err(TokenNotFound)
    ensures BearerToken("Bearer ") == Err(TokenNotFound)
    ensures BearerToken("Basic abcde") == Err(TokenNotFound)
  {
    assert Lower("Basic a"[1]) != Lower(Scheme[1]);
  }

  /** `ExtractBearerToken`: the token, or the empty string beside the error. */
  datatype Extracted = Extracted(token: string, err: Outcome)

  function ExtractBearerToken(authorization: string): (r: Extracted)
    ensures r.err.Pass? <==> BearerToken(authorization).Ok?
    ensures r.err.Pass? ==> r.token == BearerToken(authorization).value
    ensures r.err.Fail? ==> r.token == "" && r.err.error == TokenNotFound
  {
    match BearerToken(authorization)
    case Ok(t) => Extracted(t, Pass)
    case Err(e) => Extracted("", Fail(e))
  }

  /** `ExtractJSONWebToken`: parse the bearer token, if there is one. */
  function ExtractJSONWebToken(authorization: string, parseSigned: string -> Result<Token>): (r: Result<Token>)
    ensures BearerToken(authorization).Err? ==> r == Err(TokenNotFound)
    ensures BearerToken(authorization).Ok? ==> r == parseSigned(BearerToken(authorization).value)
  {
    match BearerToken(authorization)
    case Err(e) => Err(e)
    case Ok(raw) => parseSigned(raw)
  }

  /** `ExtractJSONWebKey`: the key for the bearer token, if there is one and it parses. */
  function ExtractJSONWebKey(authorization: string, parseSigned: string -> Result<Token>, keyer: Keyer): (r: Result<Key>)
    ensures BearerToken(authorization).Err? ==> r == Err(TokenNotFound)
    ensures ExtractJSONWebToken(authorization, parseSigned).Err? ==> r == Err(ExtractJSONWebToken(authorization, parseSigned).error)
    ensures ExtractJSONWebToken(authorization, parseSigned).Ok? ==> r == keyer(ExtractJSONWebToken(authorization, parseSigned).value)
  {
    match ExtractJSONWebToken(authorization, parseSigned)
    case Err(e) => Err(e)
    case Ok(token) => keyer(token)
  }

  /**
   * Without a bearer token neither the parser nor the keyer is consulted:
   * any choice of them gives the same answer.
   */
  lemma NoTokenConsultsNothing(authorization: string,
                               parse1: string -> Result<Token>, keyer1: Keyer,
                               parse2: string -> Result<Token>, keyer2: Keyer)
    requires BearerToken(authorization).Err?
    ensures ExtractJSONWebToken(authorization, parse1) == ExtractJSONWebToken(authorization, parse2) == Err(TokenNotFound)
    ensures ExtractJSONWebKey(authorization, parse1, keyer1) == ExtractJSONWebKey(authorization, parse2, keyer2) == Err(TokenNotFound)
  {
  }
}
