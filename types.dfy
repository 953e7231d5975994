/**
 * Values shared by the whole kit: the small failure-carrying wrappers, the
 * errors the kit and its JOSE library report, and the parts of a JSON Web
 * Token and of a JSON Web Key that the kit looks at.
 */
module Types {

  datatype Option<+T> = None | Some(value: T)

  /** Every error kind the kit returns or passes through. */
  datatype Error =
    | JWKNotFound                  // the key id is absent even after a fresh fetch
    | TransportError(reason: string) // the GET of the key set failed
    | NotJSONObject                // the key set reply is not labelled application/json
    | DecodeError(reason: string)  // the key set body is not a JSON key set
    | NoHeaders                    // the token carries no protocol header
    | InvalidAlgorithm             // the first header names another algorithm
    | TokenNotFound                // no bearer token in the Authorization header
    | LibraryError(reason: string) // reported by the JOSE library (parse, signature, claims)

  /** A value or the error that replaced it (Go's `(T, error)` pair). */
  datatype Result<+T> = Ok(value: T) | Err(error: Error)

  /** A bare error return: `Pass` is Go's nil error. */
  datatype Outcome = Pass | Fail(error: Error)

  /** The one signature algorithm the kit accepts. */
  const RS256: string := "RS256"

  /** A JOSE protocol header: the declared algorithm and key id. */
  datatype Header = Header(algorithm: string, keyID: string)

  /** A parsed, not yet verified, compact-serialised token. */
  datatype Token = Token(headers: seq<Header>, payload: string)

  /** A JSON Web Key as the key set lists it; `material` stands for the public key. */
  datatype Key = Key(keyID: string, algorithm: string, use: string, material: string)

  /** Whatever can supply the verification key of a token (a `JSONWebKeyer`). */
  type Keyer = Token -> Result<Key>
}
