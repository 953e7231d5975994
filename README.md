# authkit: JWKS key cache, RS256 validator and bearer extraction, in Dafny

This project models the core of authkit, a small Go kit for authenticating
bearer JSON Web Tokens against a remote JSON Web Key Set (JWKS). It has four
parts, one Dafny module each:

- `Jwk` (jwk.go): `JWKSClient`, a client object holding the key set URL and a
  cache from key id to key. `JSONWebKey` checks the cache, fetches the whole
  remote set once on a miss, and checks again. `Fetch` either fails and leaves
  the cache as it was, or stores every fetched key under its id, in list
  order. `JSONWebKeyForToken` insists on RS256 in the token's first header
  before any lookup. The class methods are proved against the specification
  functions `FetchKeys`, `MergeKeys`, `Resolve` and `ResolveForToken`, and the
  lemmas are stated about those functions.
- `Utils` (utils.go): the first-header and algorithm checks.
- `Validator` (validator.go): `RS256Validator` and its short-circuiting
  pipeline: parse, algorithm check, keyer, signature-verifying decode of the
  registered claims, claim validation at the current time, then a second
  keyer consultation and the decode of custom claims. Each function records
  the steps it takes as a list of `Call`s. The contracts state that these
  steps are a prefix of one fixed order. They also state what each step was
  given: the keyer sees only RS256 tokens, the decoders see only the keyer's
  key, and validation sees only the expected claims stamped with `now`.
- `HttpAuth` (http/http.go): extraction of the bearer token from an
  Authorization header value, and the early returns of the helpers built on it.

`Types` holds the values shared by all four: errors, `Result`/`Outcome`,
token headers, keys and the `Keyer` function type (the `JSONWebKeyer`
interface).

Abstractions:
- Each operation that may fetch takes a `FetchOutcome` parameter. It stands
  for the reply the remote would give to a GET at that moment: unreachable,
  or a status code, a Content-Type and a decoded body.
- The JOSE library's parser, claim decoder and claim validator are the
  function-valued fields of a `Jose` value.
- The clock is the `now` parameter.
- Header values and tokens are strings whose characters stand for bytes.

`fetch` never reads the status code (jwk.go:73-88): a reply with status 500,
a JSON Content-Type and a well-formed key set is accepted, so a non-2xx reply
is not by itself a failure. The model follows the code, and
`Jwk.StatusCodeIgnored` states it.

## Model

| member | source | states |
|---|---|---|
| `Utils.HeaderOf` | utils.go:10-16 | an error (no headers) exactly when the header list is empty; otherwise the first header |
| `Utils.ValidateHeaderAlgo` | utils.go:18-24 | passes iff the header's algorithm equals the given one exactly; otherwise "invalid algorithm" |
| `Utils.ValidateTokenAlgo` | utils.go:26-33 | passes iff there is a first header declaring the algorithm; a missing header is reported before any comparison |
| `Utils.OnlyFirstHeaderCounts` | utils.go:10-33 | two tokens with the same first header get the same header and the same algorithm verdict, whatever follows |
| `Utils.AlgorithmIsCaseSensitive` | utils.go:18-24 | "rs256" is refused where RS256 is required |
| `Jwk.FetchKeys` | jwk.go:73-88 | a reply yields keys iff it is reachable, its Content-Type starts with "application/json" and its body decodes; the keys are the decoded list |
| `Jwk.StatusCodeIgnored` | jwk.go:80-83 | changing the status code of a reply never changes the outcome of the fetch |
| `Jwk.MergeKeys` | jwk.go:90-92 | after storing the list, the cache's ids are the old ids plus the listed ids; unlisted ids keep their old keys; each listed id maps to a listed key carrying that id |
| `Jwk.MergeKeysLaterWins` | jwk.go:90-92 | for a duplicated id the entry stored is the last one in the list |
| `Jwk.Resolve` | jwk.go:37-57 | a fetch happens iff the id is not cached; a hit leaves the cache alone; the result is a key iff the id is in the resulting cache, and then it is the cached key with that id; a failed fetch leaves the cache unchanged and returns its error; a fetch that does not bring the id gives JWKNotFound |
| `Jwk.ResolveForToken` | jwk.go:59-71 | a missing header or a non-RS256 algorithm is returned with the cache unread and no fetch; otherwise the result is the resolution of the first header's key id |
| `Jwk.SecondResolveHits` | jwk.go:42-56 | after a resolution that returned a key, resolving the same id again is a hit with the same key and no fetch |
| `Jwk.SecondTokenResolveHits` | jwk.go:59-71 | the same for token resolution: the validator's second keyer consultation returns the key of the first and does not fetch |
| `Jwk.NoNegativeCaching` | jwk.go:42-56 | after a fetch error or JWKNotFound, resolving the same id again fetches again |
| `Jwk.OneFetchServesDocument` | jwk.go:48-56 | after one successful fetch, every id the document lists is a hit returning the last key listed under it |
| `Jwk.ServerErrorLeavesCacheEmpty` | jwk.go:73-83 | an error page in reply to the only fetch for an uncached id gives the not-JSON error, an empty cache, and a new fetch on the next call |
| `Jwk.JWKSClient.constructor` | jwk.go:97-103 | a new client stores the URL, has an empty cache and has fetched nothing |
| `Jwk.JWKSClient.Fetch` | jwk.go:73-95 | counts one fetch; on failure returns the error and leaves the cache unchanged; on success the cache is the old cache merged with the fetched list; every key stays stored under its own id |
| `Jwk.JWKSClient.JSONWebKey` | jwk.go:37-57 | result, new cache and number of fetches (zero or one) are those of `Resolve`; a returned key carries the requested id |
| `Jwk.JWKSClient.JSONWebKeyForToken` | jwk.go:59-71 | result, new cache and number of fetches are those of `ResolveForToken`; a returned key carries the first header's key id |
| `Validator.NewRS256Validator` | validator.go:63-74 | audience first, issuer second: expected issuer is the issuer, expected audience the one-element list of the audience, no time set, and the keyer is kept |
| `Validator.ValidToken` | validator.go:28-53 | steps follow parse, algorithm, keyer, verify, validate, stopping only on an error; every step is admissible and works on the parsed token; a token is returned exactly when validation was reached, together with the validator's verdict on the decoded claims |
| `Validator.Claims` | validator.go:55-61 | consults the keyer, returns its error unchanged, or decodes the custom claims with its key |
| `Validator.ValidClaims` | validator.go:19-26 | steps follow the seven-step order, each admissible; any error of `ValidToken` is returned with nothing more done; custom claims are decoded only after claim validation passed; success is the custom claims decoded with the keyer's key |
| `Validator.ParseFailureStops` | validator.go:29-32 | a parse error is returned and nothing else is consulted |
| `Validator.AlgorithmCheckedBeforeKeyer` | validator.go:34-41 | a token failing the RS256 check is refused with that error before the keyer, and the keyer chosen makes no difference |
| `Validator.KeyerErrorPropagates` | validator.go:38-41 | a keyer error is returned unchanged and no claims are decoded |
| `Validator.VerifyFailureStops` | validator.go:43-48 | a signature or decoding failure of the registered claims is returned before validation |
| `Validator.ValidationFailureStops` | validator.go:20-52 | a failed claim validation hands back the token with the error, and `ValidClaims` returns that error without decoding custom claims |
| `Validator.SuccessDecodesCustomClaims` | validator.go:19-61 | when every step passes, all seven steps run in order and the result is the custom claims decoded with the keyer's key |
| `Validator.UsernameClaimDecoded` | validator_test.go:10-46 | the package's success case: with audience first and issuer second matching the token's `iss` and `aud`, before its expiry, the custom username claim "johndoe" is decoded |
| `Validator.SwappedArgumentsRefuseTestToken` | validator.go:66-73 | with issuer and audience passed in the wrong order the same token fails claim validation and nothing is decoded |
| `Validator.TestValidate` | validator_test.go:11-23 | the test's stand-in claim check passes only for an equal issuer and a listed expected audience |
| `HttpAuth.BearerToken` | http/http.go:48-54 | succeeds iff the value is longer than 7 bytes and begins with "bearer " in any case; the token is the non-empty rest after those 7 bytes; otherwise TokenNotFound |
| `HttpAuth.BearerTokenRoundTrip` | http/http.go:50-51 | any casing of "Bearer " followed by a non-empty token extracts that token |
| `HttpAuth.CapitalisedSchemeFolds` | http/http.go:50 | "Bearer " is one of the accepted casings |
| `HttpAuth.NoBearerToken` | http/http.go:49-53 | an empty value, exactly "Bearer ", and "Basic abcde" give TokenNotFound |
| `HttpAuth.ExtractBearerToken` | http/http.go:20-23 | the token on success; the empty string beside TokenNotFound on failure |
| `HttpAuth.ExtractJSONWebToken` | http/http.go:28-34 | TokenNotFound without parsing when there is no bearer token; otherwise the parse of the token |
| `HttpAuth.ExtractJSONWebKey` | http/http.go:39-46 | TokenNotFound without parsing or keying when there is no bearer token; a parse error is returned; otherwise the keyer's answer for the parsed token |
| `HttpAuth.NoTokenConsultsNothing` | http/http.go:28-46 | without a bearer token the result is TokenNotFound for every parser and every keyer |

## Left out

- `sync.Mutex` in `JSONWebKey`: calls are modelled as sequential, with the lock implicit. Atomicity of the cache update under concurrent callers is not modelled.
- The HTTP GET, the closing of the reply body and the JSON decoder of `fetch` are not modelled. They are replaced by the `FetchOutcome` parameter.
- Validator.TestValidate: a stand-in for the library's claim check used only by the test-case lemmas; it checks issuer, audience and expiry and leaves out not-before, issued-at leeway and the library's other rules.
- The go-jose library (`jwt.ParseSigned`, `token.Claims` with RSA signature verification, `claims.Validate`, `Expected.WithTime`'s use by the library) is not part of this model. Its operations are the function values of `Jose`. The issuer, audience and expiry rules live there, and no property about them is stated here.
- `time.Now()` is the `now` parameter.
- `http.Request` and `Header.Get("Authorization")`: the helpers take the header value as a string.
- Validator.ValidClaims: the keyer is a pure function, so both consultations give the same answer. For a `JWKSClient` keyer, `Jwk.SecondTokenResolveHits` shows that the second consultation returns the same key without fetching.
- Validator.ValidClaims: the variadic destinations `dst ...interface{}` are one decoded custom-claims value (`Payload`). Partial filling of destinations on a decoding error is not modelled.
- Error values are error kinds. Message texts and Go's zero-value key returned beside an error are not modelled.
- testutils_test.go (PEM reading, key parsing, signer set-up) is not part of this model.
