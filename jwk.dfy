/**
 * The client for a remote JSON Web Key Set: a cache from key id to key that
 * is filled, on a miss, by fetching the whole remote document.
 *
 * The GET request and the JSON decoding of its body are not modelled; each
 * operation that may fetch receives the reply the remote would give at that
 * moment as a `FetchOutcome` value.
 */
module Jwk {
  import opened Types
  import Utils

  /** The media type prefix the key set reply must carry. */
  const JSONMediaType: string := "application/json"

  predicate HasPrefix(s: string, prefix: string)
  {
    |prefix| <= |s| && s[..|prefix|] == prefix
  }

  /** What JSON decoding makes of the reply body. */
  datatype Body = Malformed(reason: string) | KeySet(keys: seq<Key>)

  /** What one GET of the key set URL yields. */
  datatype FetchOutcome =
    | Unreachable(reason: string)
    | Response(statusCode: int, contentType: string, body: Body)

  /** Every cached key is stored under its own id. */
  ghost predicate KeyedById(cache: map<string, Key>)
  {
    forall id :: id in cache ==> cache[id].keyID == id
  }

  /** The ids a key list names. */
  function KeyIds(keys: seq<Key>): set<string>
  {
    set k | k in keys :: k.keyID
  }

  /**
   * The decoding step of a fetch: the key list of a reply, or the error
   * that makes the fetch fail.
   */
  function FetchKeys(response: FetchOutcome): (r: Result<seq<Key>>)
    ensures r.Ok? <==> response.Response? && HasPrefix(response.contentType, JSONMediaType) && response.body.KeySet?
    ensures r.Ok? ==> r.value == response.body.keys
  {
    match response
    case Unreachable(reason) => Err(TransportError(reason))
    case Response(_, contentType, body) =>
      if !HasPrefix(contentType, JSONMediaType) then Err(NotJSONObject)
      else match body
        case Malformed(reason) => Err(DecodeError(reason))
        case KeySet(keys) => Ok(keys)
  }

  /**
   * The cache after storing each key of `keys` under its id, in list order.
   * Ids the list names come from the list; every other entry is kept.
   */
  function MergeKeys(cache: map<string, Key>, keys: seq<Key>): (r: map<string, Key>)
    ensures r.Keys == cache.Keys + KeyIds(keys)
    ensures forall id :: id in cache && id !in KeyIds(keys) ==> r[id] == cache[id]
    ensures forall id :: id in KeyIds(keys) ==> r[id] in keys && r[id].keyID == id
    decreases |keys|
  {
    if keys == [] then cache
    else
      var last := keys[|keys| - 1];
      var front := keys[..|keys| - 1];
      assert keys == front + [last];
      assert KeyIds(keys) == KeyIds(front) + {last.keyID};
      MergeKeys(cache, front)[last.keyID := last]
  }

  /**
   * Later entries win: a key that no later entry of the list shares an id
   * with is the one the merged cache holds for that id.
   */
  lemma {:induction false} MergeKeysLaterWins(cache: map<string, Key>, keys: seq<Key>, i: nat)
    requires i < |keys|
    requires forall j :: i < j < |keys| ==> keys[j].keyID != keys[i].keyID
    ensures keys[i].keyID in MergeKeys(cache, keys)
    ensures MergeKeys(cache, keys)[keys[i].keyID] == keys[i]
  {
    var front := keys[..|keys| - 1];
    if i < |keys| - 1 {
      MergeKeysLaterWins(cache, front, i);
    }
  }

  /** The status code of the reply is never looked at. */
  lemma StatusCodeIgnored(response: FetchOutcome, status: int)
    requires response.Response?
    ensures FetchKeys(response.(statusCode := status)) == FetchKeys(response)
  {
  }

  /** One resolution of a key id: its result, the cache after it, whether it fetched. */
  datatype Resolution = Resolution(result: Result<Key>, cache: map<string, Key>, fetched: bool)

  /**
   * Resolving `id` against `cache` with `response` as the reply to a
   * fetch, should one happen: check, fetch, re-check.
   */
  function Resolve(cache: map<string, Key>, id: string, response: FetchOutcome): (s: Resolution)
    ensures s.fetched <==> id !in cache
    ensures s.result.Ok? <==> id in s.cache
    ensures s.result.Ok? ==> s.result.value == s.cache[id]
    ensures s.cache == if s.fetched && FetchKeys(response).Ok? then MergeKeys(cache, FetchKeys(response).value) else cache
    ensures s.result.Err? ==> s.result.error == if FetchKeys(response).Err? then FetchKeys(response).error else JWKNotFound
    ensures KeyedById(cache) ==> KeyedById(s.cache) && (s.result.Ok? ==> s.result.value.keyID == id)
  {
    if id in cache then Resolution(Ok(cache[id]), cache, false)
    else match FetchKeys(response)
      case Err(e) => Resolution(Err(e), cache, true)
      case Ok(keys) =>
        var updated := MergeKeys(cache, keys);
        Resolution(if id in updated then Ok(updated[id]) else Err(JWKNotFound), updated, true)
  }

  /**
   * Resolving the key for a token: the first header must declare RS256
   * before the cache is read or anything is fetched.
   */
  function ResolveForToken(cache: map<string, Key>, token: Token, response: FetchOutcome): (s: Resolution)
    ensures Utils.ValidateTokenAlgo(token, RS256).Fail? ==>
      s == Resolution(Err(Utils.ValidateTokenAlgo(token, RS256).error), cache, false)
    ensures Utils.ValidateTokenAlgo(token, RS256).Pass? ==> s == Resolve(cache, token.headers[0].keyID, response)
    ensures s.fetched || s.result.Ok? ==> token.headers != [] && token.headers[0].algorithm == RS256
  {
    match Utils.HeaderOf(token)
    case Err(e) => Resolution(Err(e), cache, false)
    case Ok(hdr) =>
      match Utils.ValidateHeaderAlgo(hdr, RS256)
      case Fail(e) => Resolution(Err(e), cache, false)
      case Pass => Resolve(cache, hdr.keyID, response)
  }

  /** A key a fetch brought in is served from the cache next time: one fetch in all. */
  lemma SecondResolveHits(cache: map<string, Key>, id: string, first: FetchOutcome, second: FetchOutcome)
    requires Resolve(cache, id, first).result.Ok?
    ensures var s := Resolve(cache, id, first);
      Resolve(s.cache, id, second) == Resolution(s.result, s.cache, false)
  {
  }

  /**
   * The same for token resolution: when the client serves as a validator's
   * keyer, its second consultation for the same token returns the key of
   * the first without fetching.
   */
  lemma SecondTokenResolveHits(cache: map<string, Key>, token: Token, first: FetchOutcome, second: FetchOutcome)
    requires ResolveForToken(cache, token, first).result.Ok?
    ensures var s := ResolveForToken(cache, token, first);
      ResolveForToken(s.cache, token, second) == Resolution(s.result, s.cache, false)
  {
  }

  /** Neither a failed fetch nor a missing id is remembered: the next call fetches again. */
  lemma NoNegativeCaching(cache: map<string, Key>, id: string, first: FetchOutcome, second: FetchOutcome)
    requires Resolve(cache, id, first).result.Err?
    ensures Resolve(Resolve(cache, id, first).cache, id, second).fetched
  {
  }

  /**
   * One fetch serves every id of the document: after a miss on `id`
   * triggered a successful fetch, each other id the document names is a
   * cache hit that returns the last key listed under it.
   */
  lemma OneFetchServesDocument(cache: map<string, Key>, id: string, response: FetchOutcome,
                               i: nat, later: FetchOutcome)
    requires id !in cache && FetchKeys(response).Ok?
    requires i < |FetchKeys(response).value|
    requires var keys := FetchKeys(response).value;
      forall j :: i < j < |keys| ==> keys[j].keyID != keys[i].keyID
    ensures var keys := FetchKeys(response).value;
      var s := Resolve(Resolve(cache, id, response).cache, keys[i].keyID, later);
      !s.fetched && s.result == Ok(keys[i])
  {
    MergeKeysLaterWins(cache, FetchKeys(response).value, i);
  }

  /**
   * A remote that answers an error page on the only fetch for an uncached
   * id: the fetch error is returned, the cache stays empty, and the next
   * resolution of the same id fetches again.
   */
  lemma ServerErrorLeavesCacheEmpty(id: string, page: string, later: FetchOutcome)
    ensures var s := Resolve(map[], id, Response(500, "text/html", Malformed(page)));
      s.result == Err(NotJSONObject) && s.cache == map[] && Resolve(s.cache, id, later).fetched
  {
  }

  /** A client for one remote key set, as a mutable object. */
  class JWKSClient {
    /** The key set URL. */
    const url: string
    /** Key id to key. */
    var cache: map<string, Key>
    /** How many fetches this client has performed. */
    ghost var fetches: nat

    ghost predicate Valid()
      reads this
    {
      KeyedById(cache)
    }

    constructor (url: string)
      ensures Valid()
      ensures this.url == url && cache == map[] && fetches == 0
    {
      this.url := url;
      cache := map[];
      fetches := 0;
    }

    /**
     * One fetch of the remote key set. Either it fails and the cache is
     * untouched, or every fetched key is stored under its id, in order.
     */
    method Fetch(response: FetchOutcome) returns (err: Outcome)
      requires Valid()
      modifies this
      ensures Valid()
      ensures fetches == old(fetches) + 1
      ensures err.Pass? <==> FetchKeys(response).Ok?
      ensures err.Fail? ==> err.error == FetchKeys(response).error && cache == old(cache)
      ensures err.Pass? ==> cache == MergeKeys(old(cache), FetchKeys(response).value)
    {
      fetches := fetches + 1;
      match response
      case Unreachable(reason) =>
        return Fail(TransportError(reason));
      case Response(_, contentType, body) =>
        if !HasPrefix(contentType, JSONMediaType) {
          return Fail(NotJSONObject);
        }
        match body
        case Malformed(reason) =>
          return Fail(DecodeError(reason));
        case KeySet(keys) =>
          var i := 0;
          while i < |keys|
            invariant 0 <= i <= |keys|
            invariant cache == MergeKeys(old(cache), keys[..i])
            invariant Valid() && fetches == old(fetches) + 1
          {
            assert keys[..i + 1] == keys[..i] + [keys[i]];
            cache := cache[keys[i].keyID := keys[i]];
            i := i + 1;
          }
          assert keys[..i] == keys;
          return Pass;
    }

    /** The key with id `id`: from the cache, or after one fetch. */
    method JSONWebKey(id: string, response: FetchOutcome) returns (key: Result<Key>)
      requires Valid()
      modifies this
      ensures Valid()
      ensures var s := Resolve(old(cache), id, response);
        key == s.result && cache == s.cache && fetches == old(fetches) + (if s.fetched then 1 else 0)
      ensures key.Ok? ==> key.value.keyID == id
    {
      if id in cache {
        return Ok(cache[id]);
      }
      var err := Fetch(response);
      if err.Fail? {
        return Err(err.error);
      }
      if id in cache {
        return Ok(cache[id]);
      }
      return Err(JWKNotFound);
    }

    /** The key for a token, after the header and algorithm checks. */
    method JSONWebKeyForToken(token: Token, response: FetchOutcome) returns (key: Result<Key>)
      requires Valid()
      modifies this
      ensures Valid()
      ensures var s := ResolveForToken(old(cache), token, response);
        key == s.result && cache == s.cache && fetches == old(fetches) + (if s.fetched then 1 else 0)
      ensures key.Ok? ==> key.value.keyID == token.headers[0].keyID
    {
      var hdr := Utils.HeaderOf(token);
      if hdr.Err? {
        return Err(hdr.error);
      }
      var algo := Utils.ValidateHeaderAlgo(hdr.value, RS256);
      if algo.Fail? {
        return Err(algo.error);
      }
      key := JSONWebKey(hdr.value.keyID, response);
    }
  }
}
