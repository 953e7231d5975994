/**
 * The header and algorithm checks that gate every key lookup.
 */
module Utils {
  import opened Types

  /** The header that counts: the first one, or an error when there is none. */
  function HeaderOf(token: Token): (r: Result<Header>)
    ensures r.Err? <==> token.headers == []
    ensures r.Err? ==> r.error == NoHeaders
    ensures r.Ok? ==> r.value == token.headers[0]
  {
    if |token.headers| < 1 then Err(NoHeaders) else Ok(token.headers[0])
  }

  /** Exact, case-sensitive comparison of the declared algorithm. */
  function ValidateHeaderAlgo(header: Header, algo: string): (r: Outcome)
    ensures r.Pass? <==> header.algorithm == algo
    ensures r.Fail? ==> r.error == InvalidAlgorithm
  {
    if header.algorithm != algo then Fail(InvalidAlgorithm) else Pass
  }

  /** The missing-header error wins over any algorithm comparison. */
  function ValidateTokenAlgo(token: Token, algo: string): (r: Outcome)
    ensures r.Pass? <==> token.headers != [] && token.headers[0].algorithm == algo
    ensures token.headers == [] ==> r == Fail(NoHeaders)
    ensures token.headers != [] && token.headers[0].algorithm != algo ==> r == Fail(InvalidAlgorithm)
  {
    match HeaderOf(token)
    case Err(e) => Fail(e)
    case Ok(h) => ValidateHeaderAlgo(h, algo)
  }

  /** Headers after the first never change any of the checks. */
  lemma OnlyFirstHeaderCounts(t1: Token, t2: Token, algo: string)
    requires t1.headers != [] && t2.headers != [] && t1.headers[0] == t2.headers[0]
    ensures HeaderOf(t1) == HeaderOf(t2)
    ensures ValidateTokenAlgo(t1, algo) == ValidateTokenAlgo(t2, algo)
  {
  }

  /** The comparison does not fold case: "rs256" is refused. */
  lemma AlgorithmIsCaseSensitive(kid: string)
    ensures ValidateHeaderAlgo(Header("rs256", kid), RS256) == Fail(InvalidAlgorithm)
  {
  }
}
