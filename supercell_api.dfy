/**
 The upstream API client: a GET with a response cache in front, one retry
 when upstream answers 429, and the mapping of upstream failures to the
 HTTP errors the service raises. The replies of the two possible requests
 and the clock are parameters; T stands for the decoded JSON payload.
 */
module SupercellApi {
  import opened Common
  import opened Text
  import Config

  /** What one request produced: a reply, a timeout, or a failure to connect. */
  datatype Response<T> = Reply(status: int, body: T, text: string) | TimedOut | ConnectFailed

  /** The cache key "api:{path}:{md5(str(params))}", kept as the pair it is computed from. */
  datatype ApiKey = ApiKey(path: string, params: Option<seq<(string, string)>>)

  datatype CacheEntry<T> = CacheEntry(data: T, expiresAt: int)

  function CacheRead<T>(cache: map<ApiKey, CacheEntry<T>>, key: ApiKey, now: int): Option<T> {
    if key in cache && now < cache[key].expiresAt then Some(cache[key].data) else None
  }

  /** The response that counts: the retry's when the first request was answered with 429. */
  function Effective<T>(first: Response<T>, retry: Response<T>): Response<T> {
    if first.Reply? && first.status == 429 then retry else first
  }

  /** How many requests reach upstream on a cache miss. */
  function RequestCount<T>(first: Response<T>): nat {
    if first.Reply? && first.status == 429 then 2 else 1
  }

  /** The error a 404 becomes, chosen by what the path names. */
  function NotFound(path: string): (e: Error)
    ensures e.status == 404
    ensures Contains(Lower(path), "clan") ==> e.reason == ClanNotFound
    ensures !Contains(Lower(path), "clan") && Contains(Lower(path), "player") ==> e.reason == PlayerNotFound
    ensures !Contains(Lower(path), "clan") && !Contains(Lower(path), "player") ==> e.reason == ResourceNotFound
  {
    if Contains(Lower(path), "clan") then Error(404, ClanNotFound)
    else if Contains(Lower(path), "player") then Error(404, PlayerNotFound)
    else Error(404, ResourceNotFound)
  }

  /** A response turned into the payload or the error raised for it. */
  function Dispatch<T>(path: string, resp: Response<T>): (r: Result<T, Error>)
    ensures resp.TimedOut? ==> r == Err(Error(504, UpstreamTimeout))
    ensures resp.ConnectFailed? ==> r == Err(Error(503, UpstreamUnreachable))
    ensures resp.Reply? ==> (r.Ok? <==> !(400 <= resp.status < 600))
    ensures resp.Reply? && r.Ok? ==> r.value == resp.body
    ensures resp.Reply? && r.Err? ==> r.error.status == resp.status
    ensures resp.Reply? && resp.status == 404 ==> r == Err(NotFound(path))
    ensures resp.Reply? && resp.status == 403 ==> r == Err(Error(403, AccessDenied))
    ensures resp.Reply? && 400 <= resp.status < 600 && resp.status != 403 && resp.status != 404 ==>
      r == Err(Error(resp.status, UpstreamFailure(resp.text)))
  {
    match resp
    case TimedOut => Err(Error(504, UpstreamTimeout))
    case ConnectFailed => Err(Error(503, UpstreamUnreachable))
    case Reply(status, body, text) =>
      if status == 404 then Err(NotFound(path))
      else if status == 403 then Err(Error(403, AccessDenied))
      else if 400 <= status < 600 then Err(Error(status, UpstreamFailure(text)))
      else Ok(body)
  }

  /** A 404 on a clan path reports the clan as not found, whatever follows "/clans/". */
  lemma ClanPathNotFound(rest: string)
    ensures NotFound("/clans/" + rest) == Error(404, ClanNotFound)
  {
    var p := Lower("/clans/" + rest);
    assert p[1..5] == "clan";
    ContainsAt(p, "clan", 1);
  }

  /** A 429 answered again with 429 surfaces as an upstream failure with status 429. */
  lemma RetryStillLimited<T>(path: string, first: Response<T>, retry: Response<T>)
    requires first.Reply? && first.status == 429 && retry.Reply? && retry.status == 429
    ensures Dispatch(path, Effective(first, retry)) == Err(Error(429, UpstreamFailure(retry.text)))
    ensures RequestCount(first) == 2
  {
  }

  /** A first reply other than 429 is final: the retry's reply is never looked at. */
  lemma NoRetryOtherwise<T>(path: string, first: Response<T>, retry: Response<T>, other: Response<T>)
    requires !(first.Reply? && first.status == 429)
    ensures Dispatch(path, Effective(first, retry)) == Dispatch(path, Effective(first, other))
    ensures RequestCount(first) == 1
  {
  }

  class ApiClient<T> {
    var cache: map<ApiKey, CacheEntry<T>>

    constructor ()
      ensures cache == map[]
    {
      cache := map[];
    }

    /** get: serve a live cached payload; otherwise request (once more after a 429),
        raise the error the response calls for, or cache the payload for API_CACHE_TTL. */
    method Get(path: string, params: Option<seq<(string, string)>>, now: int,
               first: Response<T>, retry: Response<T>)
      returns (r: Result<T, Error>, requests: nat)
      modifies this
      ensures var key := ApiKey(path, params); var hit := CacheRead(old(cache), key, now);
        if hit.Some? then
          r == Ok(hit.value) && requests == 0 && cache == old(cache)
        else
          requests == RequestCount(first) &&
          r == Dispatch(path, Effective(first, retry)) &&
          cache == (if r.Ok? then old(cache)[key := CacheEntry(r.value, now + Config.ApiCacheTtl)] else old(cache))
      ensures requests <= 2
    {
      var cacheKey := ApiKey(path, params);
      var cached := CacheRead(cache, cacheKey, now);
      if cached.Some? {
        return Ok(cached.value), 0;
      }
      var response := first;
      requests := 1;
      if response.Reply? && response.status == 429 {
        response := retry;
        requests := 2;
      }
      r := Dispatch(path, response);
      if r.Ok? {
        cache := cache[cacheKey := CacheEntry(r.value, now + Config.ApiCacheTtl)];
      }
    }
  }

  /** A payload cached by a successful get is served until API_CACHE_TTL seconds
      have passed, and not after. */
  lemma CachedPayloadServed<T>(cache: map<ApiKey, CacheEntry<T>>, key: ApiKey, data: T, at: int, later: int)
    ensures later < at + Config.ApiCacheTtl ==>
      CacheRead(cache[key := CacheEntry(data, at + Config.ApiCacheTtl)], key, later) == Some(data)
    ensures later >= at + Config.ApiCacheTtl ==>
      CacheRead(cache[key := CacheEntry(data, at + Config.ApiCacheTtl)], key, later).None?
  {
  }
}
