/**
 The result cache of the image controller. A request names a prompt and an
 optional size; the pair is turned into a key, an unexpired entry under that
 key answers the request without calling the provider, and otherwise one
 provider call is made whose first URL is stored for five minutes.

 The provider's answer and the two clock readings of a request are
 parameters: the clock is read once before the lookup and once more, after
 the provider has answered, to stamp the new entry.
 */
module ImageCache {
  import opened Wrappers
  import opened ImageSizes

  /** How long a generated image stays valid: five minutes, in milliseconds. */
  const CacheExpiration: int := 5 * 60 * 1000

  /** The one message every failure reports to the client. */
  const FailureMessage: string := "The image could not be generated"

  /** A cached result: the image URL and the instant it stops being valid. */
  datatype Entry = Entry(url: string, expiration: int)

  /**
   What the provider call gave back: the list of generated image URLs, or an
   error. An empty list stands for a reply without a first item, which makes
   the handler fail on reading the URL and land in its error path.
   */
  datatype ProviderResult = Ok(urls: seq<string>) | Err

  /** The reply sent to the client. */
  datatype Response = Success(data: string) | Failure(error: string) {
    /** The HTTP status of the reply. */
    function Status(): (code: int)
      ensures code == 200 <==> Success?
      ensures code == 400 <==> Failure?
    {
      if Success? then 200 else 400
    }
  }

  /** The fixed reply of every failed generation. */
  const FailureResponse: Response := Failure(FailureMessage)

  /** The cache key: the prompt and the dimension, concatenated with no separator. */
  function Key(prompt: string, dim: string): (key: string)
    ensures |key| == |prompt| + |dim|
    ensures key[..|prompt|] == prompt && key[|prompt|..] == dim
  {
    prompt + dim
  }

  /** The key a request is filed under. */
  function RequestKey(prompt: string, size: Option<string>): (key: string)
    ensures |key| > |prompt| && key[..|prompt|] == prompt && IsDimension(key[|prompt|..])
    ensures key[|prompt|..] == ResolveSize(size)
  {
    Key(prompt, ResolveSize(size))
  }

  /** An entry answers a lookup at time `now` when it exists and expires strictly later. */
  predicate IsFresh(cache: map<string, Entry>, key: string, now: int): (hit: bool)
    ensures hit ==> key in cache
    ensures key in cache && cache[key].expiration <= now ==> !hit
    ensures key in cache && cache[key].expiration > now ==> hit
  {
    key in cache && cache[key].expiration > now
  }

  /** The effect of one request: the new table, the reply, and whether the provider was called. */
  datatype Outcome = Outcome(cache: map<string, Entry>, resp: Response, consulted: bool)

  /**
   One get-or-generate request against the table `cache`, as a function of
   its inputs: `nowCheck` is the clock at the lookup, `nowInsert` the clock
   when the provider has answered.
   */
  function Serve(cache: map<string, Entry>, prompt: string, size: Option<string>,
                 nowCheck: int, nowInsert: int, provider: ProviderResult): (o: Outcome)
    ensures o.cache.Keys == cache.Keys + (if o.cache == cache then {} else {RequestKey(prompt, size)})
    ensures forall k :: k in cache && k != RequestKey(prompt, size) ==> o.cache[k] == cache[k]
    ensures o.resp.Success? ==> RequestKey(prompt, size) in o.cache
                                && o.cache[RequestKey(prompt, size)].url == o.resp.data
    ensures o.resp.Failure? ==> o.resp == FailureResponse && o.cache == cache && o.consulted
  {
    var key := RequestKey(prompt, size);
    if IsFresh(cache, key, nowCheck) then
      Outcome(cache, Success(cache[key].url), false)
    else
      match provider
      case Ok(urls) =>
        if |urls| == 0 then Outcome(cache, FailureResponse, true)
        else Outcome(cache[key := Entry(urls[0], nowInsert + CacheExpiration)], Success(urls[0]), true)
      case Err => Outcome(cache, FailureResponse, true)
  }

  /**
   The process-wide table of cached images. `providerCalls` counts the
   requests that had to call the provider.
   */
  class Cache {
    var entries: map<string, Entry>
    ghost var providerCalls: nat

    constructor ()
      ensures entries == map[] && providerCalls == 0
    {
      entries := map[];
      providerCalls := 0;
    }

    /** Answer a request from the table if possible, otherwise from the provider. */
    method GetOrGenerate(prompt: string, size: Option<string>, nowCheck: int, nowInsert: int,
                         provider: ProviderResult) returns (resp: Response)
      modifies this
      ensures var o := Serve(old(entries), prompt, size, nowCheck, nowInsert, provider);
              entries == o.cache && resp == o.resp
              && providerCalls == old(providerCalls) + (if o.consulted then 1 else 0)
      ensures entries.Keys >= old(entries.Keys)
    {
      var key := RequestKey(prompt, size);
      if IsFresh(entries, key, nowCheck) {
        resp := Success(entries[key].url);
        return;
      }
      providerCalls := providerCalls + 1;
      match provider {
        case Ok(urls) =>
          if |urls| == 0 {
            resp := FailureResponse;
          } else {
            var imageUrl := urls[0];
            entries := entries[key := Entry(imageUrl, nowInsert + CacheExpiration)];
            resp := Success(imageUrl);
          }
        case Err =>
          resp := FailureResponse;
      }
    }
  }

  /** A hit returns the stored URL, does not call the provider and changes nothing. */
  lemma HitServesStored(cache: map<string, Entry>, prompt: string, size: Option<string>,
                        nowCheck: int, nowInsert: int, provider: ProviderResult)
    requires IsFresh(cache, RequestKey(prompt, size), nowCheck)
    ensures Serve(cache, prompt, size, nowCheck, nowInsert, provider)
            == Outcome(cache, Success(cache[RequestKey(prompt, size)].url), false)
  {
  }

  /**
   The provider is called exactly when the lookup misses; in particular an
   entry whose expiration is not later than the clock counts as a miss.
   */
  lemma ConsultedIffMiss(cache: map<string, Entry>, prompt: string, size: Option<string>,
                         nowCheck: int, nowInsert: int, provider: ProviderResult)
    ensures Serve(cache, prompt, size, nowCheck, nowInsert, provider).consulted
            <==> !(RequestKey(prompt, size) in cache && cache[RequestKey(prompt, size)].expiration > nowCheck)
  {
  }

  /**
   A successful generation replaces whatever was stored under the key by the
   first URL, valid until five minutes after the second clock reading, and
   returns that same URL; no other key is touched.
   */
  lemma MissStoresFirstUrl(cache: map<string, Entry>, prompt: string, size: Option<string>,
                           nowCheck: int, nowInsert: int, urls: seq<string>)
    requires !IsFresh(cache, RequestKey(prompt, size), nowCheck)
    requires |urls| > 0
    ensures var o := Serve(cache, prompt, size, nowCheck, nowInsert, Ok(urls));
            o.cache == cache[RequestKey(prompt, size) := Entry(urls[0], nowInsert + 300000)]
            && o.resp == Success(urls[0]) && o.consulted
  {
  }

  /** A provider error, or a reply without images, leaves the table as it was and fails with status 400. */
  lemma MissFailureLeavesCache(cache: map<string, Entry>, prompt: string, size: Option<string>,
                               nowCheck: int, nowInsert: int, provider: ProviderResult)
    requires !IsFresh(cache, RequestKey(prompt, size), nowCheck)
    requires provider.Err? || provider == Ok([])
    ensures var o := Serve(cache, prompt, size, nowCheck, nowInsert, provider);
            o.cache == cache && o.resp == Failure("The image could not be generated")
            && o.resp.Status() == 400 && o.consulted
  {
  }

  /**
   No negative caching: when a request fails, the same request made again
   (with a clock that has not gone back) calls the provider again.
   */
  lemma FailureIsRetried(cache: map<string, Entry>, prompt: string, size: Option<string>,
                         nowCheck: int, nowInsert: int, provider: ProviderResult,
                         nowCheck2: int, nowInsert2: int, provider2: ProviderResult)
    requires Serve(cache, prompt, size, nowCheck, nowInsert, provider).resp.Failure?
    requires nowCheck <= nowCheck2
    ensures var o := Serve(cache, prompt, size, nowCheck, nowInsert, provider);
            Serve(o.cache, prompt, size, nowCheck2, nowInsert2, provider2).consulted
  {
  }

  /**
   Once a request has succeeded, the same request answers with the same URL
   and without calling the provider, whatever the provider would say, for
   as long as the stored entry has not expired.
   */
  lemma RepeatHitsWhileFresh(cache: map<string, Entry>, prompt: string, size: Option<string>,
                             nowCheck: int, nowInsert: int, provider: ProviderResult,
                             nowCheck2: int, nowInsert2: int, provider2: ProviderResult)
    requires var o := Serve(cache, prompt, size, nowCheck, nowInsert, provider);
             o.resp.Success? && nowCheck2 < o.cache[RequestKey(prompt, size)].expiration
    ensures var o := Serve(cache, prompt, size, nowCheck, nowInsert, provider);
            Serve(o.cache, prompt, size, nowCheck2, nowInsert2, provider2) == Outcome(o.cache, o.resp, false)
  {
  }

  /**
   A freshly generated image lives exactly five minutes from the second
   clock reading: before that the same request is a hit with the same URL,
   from then on it calls the provider again.
   */
  lemma GeneratedLivesFiveMinutes(cache: map<string, Entry>, prompt: string, size: Option<string>,
                                  nowCheck: int, nowInsert: int, provider: ProviderResult,
                                  nowCheck2: int, nowInsert2: int, provider2: ProviderResult)
    requires var o := Serve(cache, prompt, size, nowCheck, nowInsert, provider);
             o.consulted && o.resp.Success?
    ensures var o := Serve(cache, prompt, size, nowCheck, nowInsert, provider);
            var o2 := Serve(o.cache, prompt, size, nowCheck2, nowInsert2, provider2);
            (nowCheck2 < nowInsert + 300000 ==> o2 == Outcome(o.cache, o.resp, false))
            && (nowCheck2 >= nowInsert + 300000 ==> o2.consulted)
  {
  }

  /** An absent size and "medium" are filed under the same key, so they behave identically. */
  lemma DefaultSizeSharesEntry(cache: map<string, Entry>, prompt: string,
                               nowCheck: int, nowInsert: int, provider: ProviderResult)
    ensures RequestKey(prompt, None) == RequestKey(prompt, Some("medium"))
    ensures Serve(cache, prompt, None, nowCheck, nowInsert, provider)
            == Serve(cache, prompt, Some("medium"), nowCheck, nowInsert, provider)
  {
  }

  /**
   With the three dimensions of the table the key determines both halves:
   the concatenation without a separator never makes two different
   (prompt, dimension) pairs collide.
   */
  lemma KeyInjective(p1: string, d1: string, p2: string, d2: string)
    requires IsDimension(d1) && IsDimension(d2)
    requires Key(p1, d1) == Key(p2, d2)
    ensures p1 == p2 && d1 == d2
  {
    var k := Key(p1, d1);
    // the three dimensions end in three different digits, so the last
    // character of the key tells which dimension it carries
    assert d1[|d1| - 1] == k[|k| - 1] == d2[|d2| - 1];
    assert d1 == d2;
    assert p1 == k[..|p1|] == p2;
  }

  /**
   Different recognised sizes give different keys for any prompt; so a
   request for "small" never touches the entry of "large", and back.
   */
  lemma SizesAreIsolated(cache: map<string, Entry>, prompt: string, t1: string, t2: string,
                         nowCheck: int, nowInsert: int, provider: ProviderResult)
    requires IsSizeName(t1) && IsSizeName(t2) && t1 != t2
    ensures RequestKey(prompt, Some(t1)) != RequestKey(prompt, Some(t2))
    ensures var k2 := RequestKey(prompt, Some(t2));
            var o := Serve(cache, prompt, Some(t1), nowCheck, nowInsert, provider);
            (k2 in o.cache <==> k2 in cache) && (k2 in cache ==> o.cache[k2] == cache[k2])
  {
    if RequestKey(prompt, Some(t1)) == RequestKey(prompt, Some(t2)) {
      KeyInjective(prompt, ResolveSize(Some(t1)), prompt, ResolveSize(Some(t2)));
      ResolveSizeInjective(t1, t2);
    }
  }
}
