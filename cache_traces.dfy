/**
 Sequences of requests served one after another against the same table,
 and what holds of the table after any number of them.
 */
module CacheTraces {
  import opened Wrappers
  import opened ImageCache

  /** One request with its inputs: body fields, the two clock readings and the provider's answer. */
  datatype Request = Request(prompt: string, size: Option<string>, nowCheck: int, nowInsert: int,
                             provider: ProviderResult)

  /** The cache key the request is filed under. */
  function KeyOf(r: Request): (key: string) {
    RequestKey(r.prompt, r.size)
  }

  /** The effect of serving the request against the table `cache`. */
  function Step(cache: map<string, Entry>, r: Request): (o: Outcome)
    ensures o.cache.Keys >= cache.Keys
  {
    Serve(cache, r.prompt, r.size, r.nowCheck, r.nowInsert, r.provider)
  }

  /** The table after serving `reqs` in order, starting from `cache`. */
  function Run(cache: map<string, Entry>, reqs: seq<Request>): (after: map<string, Entry>)
    ensures after.Keys >= cache.Keys
  {
    if reqs == [] then cache else Step(Run(cache, reqs[..|reqs| - 1]), reqs[|reqs| - 1]).cache
  }

  /**
   Request `i` of `reqs`, served after the requests before it starting from
   `cache`, missed and called the provider, got at least one URL, and stored
   `e` under `k`.
   */
  ghost predicate StoredBy(cache: map<string, Entry>, reqs: seq<Request>, i: int, k: string, e: Entry) {
    && 0 <= i < |reqs|
    && KeyOf(reqs[i]) == k
    && Step(Run(cache, reqs[..i]), reqs[i]).consulted
    && reqs[i].provider.Ok? && |reqs[i].provider.urls| > 0
    && e == Entry(reqs[i].provider.urls[0], reqs[i].nowInsert + CacheExpiration)
  }

  /** A key that none of the requests maps to is exactly as it was. */
  lemma {:induction false} UnrequestedKeysUntouched(cache: map<string, Entry>, reqs: seq<Request>, k: string)
    requires forall i :: 0 <= i < |reqs| ==> KeyOf(reqs[i]) != k
    ensures k in Run(cache, reqs) <==> k in cache
    ensures k in cache ==> Run(cache, reqs)[k] == cache[k]
  {
    if reqs != [] {
      var pre := reqs[..|reqs| - 1];
      forall i | 0 <= i < |pre| ensures KeyOf(pre[i]) != k {
        assert pre[i] == reqs[i];
      }
      UnrequestedKeysUntouched(cache, pre, k);
    }
  }

  /** A request that changes the table missed, got a URL, and stored its first one under its key. */
  lemma ChangeIsGeneration(cache: map<string, Entry>, r: Request)
    requires Step(cache, r).cache != cache
    ensures Step(cache, r).consulted && r.provider.Ok? && |r.provider.urls| > 0
    ensures Step(cache, r).cache[KeyOf(r)] == Entry(r.provider.urls[0], r.nowInsert + CacheExpiration)
  {
  }

  /** A witness in a prefix of the run is a witness in the whole run. */
  lemma StoredByExtends(cache: map<string, Entry>, reqs: seq<Request>, n: nat, i: int, k: string, e: Entry)
    requires n <= |reqs|
    requires StoredBy(cache, reqs[..n], i, k, e)
    ensures StoredBy(cache, reqs, i, k, e)
  {
    assert reqs[..n][i] == reqs[i] && reqs[..n][..i] == reqs[..i];
  }

  /**
   No negative caching, over any run: every entry of the final table was
   either there at the start, unchanged, or was stored by a request of the
   run that missed, called the provider and received a URL, with that first
   URL and five minutes of validity from that request's second clock reading.
   */
  lemma {:induction false} EntriesComeFromProvider(cache: map<string, Entry>, reqs: seq<Request>, k: string)
    requires k in Run(cache, reqs)
    ensures (k in cache && Run(cache, reqs)[k] == cache[k])
            || exists i :: StoredBy(cache, reqs, i, k, Run(cache, reqs)[k])
  {
    if reqs != [] {
      var n := |reqs| - 1;
      var pre := reqs[..n];
      var mid := Run(cache, pre);
      var o := Step(mid, reqs[n]);
      assert Run(cache, reqs) == o.cache;
      var e := o.cache[k];
      if o.cache != mid && k == KeyOf(reqs[n]) {
        ChangeIsGeneration(mid, reqs[n]);
        assert StoredBy(cache, reqs, n, k, e);
      } else {
        assert k in mid && e == mid[k];
        EntriesComeFromProvider(cache, pre, k);
        if !(k in cache && mid[k] == cache[k]) {
          var i :| StoredBy(cache, pre, i, k, mid[k]);
          StoredByExtends(cache, reqs, n, i, k, e);
        }
      }
    }
  }

  /** Starting from the empty table, every entry was stored by a request of the run that missed and received a URL. */
  lemma FromEmptyOnlyGenerated(reqs: seq<Request>, k: string)
    requires k in Run(map[], reqs)
    ensures exists i :: StoredBy(map[], reqs, i, k, Run(map[], reqs)[k])
  {
    EntriesComeFromProvider(map[], reqs, k);
  }
}
