# Image controller cache, modelled in Dafny

The controller answers an image-generation request (a prompt and an optional
size name) with the URL of a generated image. It keeps a process-wide table
that maps a key, the prompt concatenated with the dimension string, to the
last URL generated for that key and the instant that URL stops being valid.
A request whose entry is present and expires strictly after the current clock
is answered from the table without calling the image provider. Otherwise the
provider is called once. On success its first URL is stored for five minutes
(300000 ms) and returned. On failure the table is left alone and the client
gets status 400 with the message "The image could not be generated".
Entries are never removed; an expired one stays until the same key is
generated again.

Files:

- `wrappers.dfy`: `Option`, for the size field that may be absent.
- `image_sizes.dfy` (module `ImageSizes`): the size table and its default.
- `image_cache.dfy` (module `ImageCache`): entries, provider results, replies,
  the key, the function `Serve` giving the effect of one request, the class
  `Cache` whose method `GetOrGenerate` updates its table in place and is proved
  equal to `Serve`, and the lemmas about one or two requests.
- `cache_traces.dfy` (module `CacheTraces`): any sequence of requests, and what
  holds of the table after it.

The provider's answer is a parameter (`ProviderResult`). An `Ok` with an empty
list stands for a reply without a first item: the handler's read of the first
URL then throws inside its `try` and ends in the error path. The clock is read
twice by the handler, once for the lookup and once after the provider has
answered, so a request carries two instants: `nowCheck` and `nowInsert`. A ghost
counter `providerCalls` in `Cache` records how many requests called the
provider.

A remark on the key: the prompt and the dimension are concatenated without a
separator, which in general lets two different pairs produce the same key. With
the three dimensions of this table that cannot happen, because they end in
three different digits; `KeyInjective` proves it.

## Model

| member | source | states |
|---|---|---|
| ImageSizes.ResolveSize | controllers/openaiController.js:39 | the result is always one of the three dimensions; a recognised size name gives its table entry, an absent or unrecognised one gives the medium dimension |
| ImageSizes.ResolveSizeCases | controllers/openaiController.js:11-15 | small gives 256x256, medium 512x512, large 1024x1024; any other name and an absent size give 512x512 |
| ImageSizes.ResolvesToDefault | controllers/openaiController.js:39 | a size resolves like "medium" if and only if it is absent or is neither "small" nor "large" |
| ImageSizes.ResolveSizeInjective | controllers/openaiController.js:11-15 | two recognised size names with the same dimension are the same name |
| ImageCache.Response.Status | controllers/openaiController.js:26-69 | a reply has status 200 exactly when it is a success and 400 exactly when it is a failure |
| ImageCache.Key | controllers/openaiController.js:42 | the key is the prompt followed by the dimension: its first part is the prompt and the rest the dimension |
| ImageCache.RequestKey | controllers/openaiController.js:39-42 | the key a request is filed under starts with the prompt and continues with the dimension its size resolves to, always one of the three |
| ImageCache.IsFresh | controllers/openaiController.js:42 | an entry answers a lookup if and only if it is present and its expiration is strictly later than the clock |
| ImageCache.Serve | controllers/openaiController.js:35-74 | one request adds at most its own key to the table, leaves every other key's entry unchanged, a success returns the URL now stored under its key, a failure is the fixed 400 reply after a provider call and leaves the table as it was |
| ImageCache.Cache.constructor | controllers/openaiController.js:32 | the table starts empty and no provider call has been made |
| ImageCache.Cache.GetOrGenerate | controllers/openaiController.js:35-74 | the new table and the reply are those of `Serve` on the old table; the call counter grows by one exactly when the provider is called; no key is removed |
| ImageCache.HitServesStored | controllers/openaiController.js:42-48 | when the entry exists and expires after the clock, the reply is that entry's URL, the provider is not called and the table is unchanged |
| ImageCache.ConsultedIffMiss | controllers/openaiController.js:42-56 | the provider is called if and only if the entry is absent or its expiration is not later than the clock, so expiry is strict |
| ImageCache.MissStoresFirstUrl | controllers/openaiController.js:58-64 | on a miss with at least one URL the table becomes the old table with the key set to the first URL expiring 300000 ms after the second clock reading, and the reply is that URL |
| ImageCache.MissFailureLeavesCache | controllers/openaiController.js:70-72 | on a miss with a provider error or no URL the table is unchanged and the reply is "The image could not be generated" with status 400 |
| ImageCache.FailureIsRetried | controllers/openaiController.js:70-72 | after a failed request the same request at a clock not earlier calls the provider again: failures are not cached |
| ImageCache.RepeatHitsWhileFresh | controllers/openaiController.js:42-48 | after a successful request, the same request before the stored expiration gives the same reply without calling the provider and changes nothing, whatever the provider would answer |
| ImageCache.GeneratedLivesFiveMinutes | controllers/openaiController.js:61-64 | after a generation, the same request is a hit before five minutes from the second clock reading and a provider call from then on |
| ImageCache.DefaultSizeSharesEntry | controllers/openaiController.js:39-42 | an absent size and "medium" give the same key and the same effect on the table and the reply |
| ImageCache.KeyInjective | controllers/openaiController.js:42 | for the three dimensions, equal keys mean equal prompts and equal dimensions |
| ImageCache.SizesAreIsolated | controllers/openaiController.js:39-42 | two different size names give different keys for the same prompt, and a request for one leaves the other's entry as it was |
| CacheTraces.Run | controllers/openaiController.js:61 | after any sequence of requests the table holds every key it held before |
| CacheTraces.UnrequestedKeysUntouched | controllers/openaiController.js:61-64 | a key that no request of the sequence maps to is present afterwards exactly when it was before, with the same entry |
| CacheTraces.EntriesComeFromProvider | controllers/openaiController.js:58-72 | every entry after a sequence of requests is either the unchanged initial entry or the first URL received for that key by some request of the sequence that missed in the run and called the provider, valid for 300000 ms from that request's second clock reading |
| CacheTraces.FromEmptyOnlyGenerated | controllers/openaiController.js:32-64 | starting from the empty table, every entry was stored by a request of the sequence that missed in the run, called the provider and received a URL |

## Left out

- The provider SDK, its configuration and the `createImage` call (lines 1-9, 52-56): a network call into foreign code, modelled only as the `ProviderResult` parameter.
- The API key read from the environment (line 6): environment input.
- The logging in `handleError` (lines 19-24): console output; only the resulting 400 reply is modelled.
- The Express request and response objects (lines 37, 43-46, 66-69): reduced to the request's fields and the `Response` datatype.
- The clock (`Date.now()`, lines 42 and 63): its two readings are parameters of each request.
- Concurrency: two requests for the same key interleaving around the provider call are not modelled; requests are served one at a time.
- JavaScript object behaviour: inherited keys of the size table (a size such as "constructor"), a prompt such as "__proto__", a size that is not a string, a missing or non-string prompt (a missing one makes the key "undefined" followed by the dimension, shared with the literal prompt "undefined"), and a provider item without a `url` that would be cached as undefined. The model uses a three-key table, a `map` for the cache, string fields, and a provider result that either carries URLs or fails.
