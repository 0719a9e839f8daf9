/** The caching and retry contract declared on `fetch_monster_details`:
    results are stored under the input url with no expiry, a failed run is not
    stored, and each uncached call runs the request at most `1 + retries`
    times. The HTTP request is a parameter (`Network`); the class holds the
    result store and counts the requests issued. */
module DetailCache {
  import opened Wrappers
  import opened PyJson

  /** `retries=2`: one attempt plus two retries. */
  const Retries: nat := 2
  const MaxAttempts: nat := 1 + Retries

  /** The answer to a request for a url, given the request's position among
      all requests issued so far (from 0). Answers may differ from one request
      to the next, so a url that failed may succeed later, and a fresh request
      may fail where an earlier one succeeded. An HTTP error is re-raised by
      the decorated function, so it arrives here as an `Err`. */
  type Network = (Json, nat) -> Result<Json, Exception>

  /** The outcome of the retry policy for one call that starts after `issued`
      requests, from attempt `attempt` on, with the number of the attempt that
      produced it: the first attempt that succeeds, or the failure of the last
      allowed attempt. Attempt `a` is request number `issued + a - 1`. */
  function Retry(net: Network, url: Json, issued: nat, attempt: nat): (r: (Result<Json, Exception>, nat))
    requires 1 <= attempt <= MaxAttempts
    ensures attempt <= r.1 <= MaxAttempts
    ensures r.0 == net(url, issued + r.1 - 1)
    ensures r.0.Err? ==> r.1 == MaxAttempts
    decreases MaxAttempts - attempt
  {
    var res := net(url, issued + attempt - 1);
    if res.Ok? || attempt == MaxAttempts then (res, attempt) else Retry(net, url, issued, attempt + 1)
  }

  /** Every attempt before the one that ended the retries failed. */
  lemma {:induction false} RetryEarlierFailed(net: Network, url: Json, issued: nat, attempt: nat)
    requires 1 <= attempt <= MaxAttempts
    ensures forall n | issued + attempt - 1 <= n < issued + Retry(net, url, issued, attempt).1 - 1 :: net(url, n).Err?
    decreases MaxAttempts - attempt
  {
    if net(url, issued + attempt - 1).Err? && attempt < MaxAttempts {
      RetryEarlierFailed(net, url, issued, attempt + 1);
    }
  }

  /** A failed attempt below the last hands over to the next one. */
  lemma RetryStep(net: Network, url: Json, issued: nat, attempt: nat)
    requires 1 <= attempt < MaxAttempts && net(url, issued + attempt - 1).Err?
    ensures Retry(net, url, issued, attempt) == Retry(net, url, issued, attempt + 1)
  {
  }

  /** A successful attempt, or the last one, ends the retries. */
  lemma RetryStop(net: Network, url: Json, issued: nat, attempt: nat)
    requires 1 <= attempt <= MaxAttempts
    requires net(url, issued + attempt - 1).Ok? || attempt == MaxAttempts
    ensures Retry(net, url, issued, attempt) == (net(url, issued + attempt - 1), attempt)
  {
  }

  /** What a call returns for a url, given the stored results and the number
      of requests issued before it: the stored record on a hit, the outcome of
      the retried request on a miss. */
  function Resolve(cache: map<Json, Json>, net: Network, issued: nat, url: Json): (r: Result<Json, Exception>)
    ensures url in cache ==> r == Ok(cache[url])
    ensures url !in cache && r.Err? ==> forall n | issued <= n < issued + MaxAttempts :: net(url, n).Err?
    ensures url !in cache && r.Ok? ==> exists n | issued <= n < issued + MaxAttempts :: r == net(url, n)
  {
    if url in cache then Ok(cache[url])
    else
      var (res, used) := Retry(net, url, issued, 1);
      RetryEarlierFailed(net, url, issued, 1);
      assert res == net(url, issued + used - 1);
      res
  }

  /** No expiry and no revalidation: a stored record is served whatever the
      network would now answer. */
  lemma StoredRecordIgnoresNetwork(cache: map<Json, Json>, net1: Network, net2: Network, n1: nat, n2: nat, url: Json)
    requires url in cache
    ensures Resolve(cache, net1, n1, url) == Resolve(cache, net2, n2, url) == Ok(cache[url])
  {
  }

  /** Failures are not stored: a url whose call failed is requested afresh by
      a later call, which may succeed. */
  lemma FailureThenSuccess(url: Json)
    ensures var net: Network := (u, n) => if n < MaxAttempts then Err(HttpError(503)) else Ok(JNull);
      Resolve(map[], net, 0, url).Err? && Resolve(map[], net, MaxAttempts, url) == Ok(JNull)
  {
    var net: Network := (u, n) => if n < MaxAttempts then Err(HttpError(503)) else Ok(JNull);
    assert Retry(net, url, 0, 3) == (Err(HttpError(503)), 3);
    assert Retry(net, url, 0, 2) == (Err(HttpError(503)), 3);
    assert Retry(net, url, 0, 1) == (Err(HttpError(503)), 3);
    assert Retry(net, url, MaxAttempts, 1) == (Ok(JNull), 1);
  }

  /** The store and the request counter behind `fetch_monster_details`. */
  class DetailFetcher {
    /** Stored results, keyed by the url argument alone; never expired. */
    var cache: map<Json, Json>
    /** HTTP requests issued so far. */
    var requests: nat

    constructor ()
      ensures cache == map[] && requests == 0
    {
      cache := map[];
      requests := 0;
    }

    /** `fetch_monster_details(url)` as the runtime executes it. */
    method FetchMonsterDetails(url: Json, net: Network) returns (r: Result<Json, Exception>)
      modifies this
      ensures r == Resolve(old(cache), net, old(requests), url)
      ensures url in old(cache) ==> cache == old(cache) && requests == old(requests)
      ensures url !in old(cache) ==> requests == old(requests) + Retry(net, url, old(requests), 1).1
      ensures cache == if r.Ok? then old(cache)[url := r.value] else old(cache)
      ensures old(requests) <= requests <= old(requests) + MaxAttempts
    {
      if url in cache {
        r := Ok(cache[url]);
        return;
      }
      ghost var issued := requests;
      var attempt := 1;
      r := net(url, requests);
      requests := requests + 1;
      while r.Err? && attempt < MaxAttempts
        invariant 1 <= attempt <= MaxAttempts
        invariant requests == issued + attempt
        invariant r == net(url, issued + attempt - 1)
        invariant Retry(net, url, issued, attempt) == Retry(net, url, issued, 1)
        invariant cache == old(cache)
        decreases MaxAttempts - attempt
      {
        RetryStep(net, url, issued, attempt);
        attempt := attempt + 1;
        r := net(url, requests);
        requests := requests + 1;
      }
      RetryStop(net, url, issued, attempt);
      if r.Ok? {
        cache := cache[url := r.value];
      }
    }
  }

  /** Cache idempotence: once a call for a url succeeded, a second call for
      it issues no request and returns the same record. After a failure
      nothing is stored, so the second call issues fresh requests. */
  method FetchTwice(f: DetailFetcher, url: Json, net: Network) returns (first: Result<Json, Exception>, second: Result<Json, Exception>)
    modifies f
    ensures first == Resolve(old(f.cache), net, old(f.requests), url)
    ensures first.Ok? ==> second == first
    ensures first.Ok? ==>
      f.requests == old(f.requests) + (if url in old(f.cache) then 0 else Retry(net, url, old(f.requests), 1).1)
    ensures first.Err? ==> url !in old(f.cache)
    ensures f.cache == if second.Ok? then old(f.cache)[url := second.value] else old(f.cache)
    ensures first.Err? ==> second == Resolve(old(f.cache), net, old(f.requests) + MaxAttempts, url)
    ensures first.Err? ==>
      f.requests == old(f.requests) + MaxAttempts + Retry(net, url, old(f.requests) + MaxAttempts, 1).1
    ensures old(f.cache).Keys <= f.cache.Keys
  {
    first := f.FetchMonsterDetails(url, net);
    second := f.FetchMonsterDetails(url, net);
  }
}
