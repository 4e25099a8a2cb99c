# Summarizer cache and request handling, modelled in Dafny

The summarizer is a small Flask service: `POST /summarize` takes a text and a summary
type (`paragraph`, `two_paragraph`, `paragraph_bullet` or `bullet`), asks the Gemini model
for a summary in that style and returns `{summary, type, cached}`. The only logic the
service owns is an in-memory cache with a one-hour lifetime and the handler's sequence
of decisions around it. This project models both.

- `wrappers.dfy`: module `Wrappers` holds `Option`.
- `cache.dfy`: module `SummaryCache` covers the key derivation, the stored entries, lookup with
  lazy expiry, and the `Cache` class. `Cache` holds the process-wide dictionary as a `map` field
  that `CacheSummary` reassigns.
- `summarizer.dfy`: module `Summarizer` covers the summary types, the request body, the response,
  and the handler. `Handle` is the handler as a function from the old dictionary to the
  response, the new dictionary and whether the provider was called. `SummarizeText` is the
  handler as a method over a `Cache`, proved equal to `Handle`.

Modelling choices:

- The clock is an integer counting microseconds, passed in. The handler reads the clock
  twice: once when it looks the entry up and once when it stores a new one, after the model
  call. So `Handle` takes two readings, `readAt` and `writtenAt`. Nothing assumes the clock
  is monotonic; as in the source, an entry stamped in the future counts as fresh.
- The md5 digest is modelled by its pre-image string `text + "_" + type` (`JoinedKey`).
  Real md5 collisions can only add key collisions.
- The four `generate_*` functions become one `Provider`: a function from the style and the
  text to `Generated(summary)` or `Failed(cause)`. A failure becomes a 500 whose message is
  `"Error generating summary: "` followed by the cause, as `generate_summary` rewraps it.
- The request body is either an object whose `text` and `type` members are present or absent,
  or `Unreadable(reason)`. Flask's `get_json` raises on a body it cannot parse, and
  `data.get` raises on a JSON value that is not an object. Both errors are caught by the
  handler's `except` and answered with 500 and the error's text.
- The cache key function is a parameter of the cache (`KeyScheme`). `Joined` is the service as
  written. `Paired` keeps text and type apart and is the correction for the finding below.
  Every property of the handler not about the key is proved for both.

The handler reads the cache before it validates the type (app.py:117-136), so an unknown type
can be answered 200 from the cache (`JoinedCacheAnswersInvalidType`). With the corrected key it
cannot (`PairedRejectsInvalidType`). Every style returns the model's text as given, and the model
call has no timeout.

## Model

| member | source | states |
|---|---|---|
| `SummaryCache.KeyPreimage` | app.py:37-39 | The key string consists of the text, one underscore, then the type, at known positions. |
| `SummaryCache.JoinedKeysCollide` | app.py:37-39 | The key is not injective: moving an `_`-separated suffix of the text to the front of the type gives the same key. |
| `SummaryCache.JoinedKeyCollisionOfValidTypes` | app.py:37-39 | Two requests with valid types share a key: `("x_two", "paragraph")` and `("x", "two_paragraph")`. |
| `SummaryCache.JoinedKeyInjectiveWithoutUnderscore` | app.py:37-39 | When neither text contains `_`, equal keys mean equal text and equal type. |
| `SummaryCache.PairedKeyInjective` | app.py:37-39 | The corrected key determines both the text and the type. |
| `SummaryCache.Cache.constructor` | app.py:34-35 | The cache starts empty. |
| `SummaryCache.Cache.GetCachedSummary` | app.py:41-48 | Returns a summary exactly when the key is stored and less than one hour old at `now`. The summary returned is the stored one. So a miss means the key is absent or its entry is at least one hour old. Reading does not change the cache. |
| `SummaryCache.Cache.CacheSummary` | app.py:50-56 | Stores the summary with timestamp `now`, overwriting the key's old entry. It can be read back at once. Every other key keeps its entry. |
| `SummaryCache.ReadAfterWrite` | app.py:41-56 | After a summary is stored at time T, a lookup at `now` returns it if `now - T` is under one hour, and nothing otherwise. |
| `SummaryCache.WriteLeavesOtherKeys` | app.py:50-56 | A store under one key does not change the lookup of any other key. |
| `SummaryCache.ExpiryIsPermanent` | app.py:44-48 | A stored entry that misses at one clock reading misses at every later one. |
| `Summarizer.ParseType` | app.py:127-136 | Accepts exactly the four type names. A parsed type's name is the input string. A string that names no type is rejected. |
| `Summarizer.ParseTypeName` | app.py:127-136 | Each type's name parses back to that type. |
| `Summarizer.SummarizeText` | app.py:106-149 | The handler method on the shared cache behaves as `Handle`. It modifies the cache only when a new summary was generated and returned uncached. |
| `Summarizer.EmptyTextRejected` | app.py:110-115 | Missing or empty text gives 400 "No text provided" for any type. There is no cache write and no provider call. |
| `Summarizer.HitServedFromCache` | app.py:117-124 | A fresh, non-empty cached summary is returned with `cached = True` and the type echoed. The provider is not called and the cache is not written. |
| `Summarizer.EmptyCachedSummaryIsMiss` | app.py:118-119 | An empty cached summary gets the same response and provider use as if the entry were absent. |
| `Summarizer.MissDispatch` | app.py:126-145 | On a miss, an unknown type gives 400 "Invalid summary type" and a provider failure gives 500. Neither writes the cache. A generated summary is stored at the write time under the request's key and returned with `cached = False`. |
| `Summarizer.CacheWrittenOnlyAfterGeneration` | app.py:138-145 | The cache changes only after a summary is generated. The only change is that summary stored under the request's key. Every uncached 200 response stored its summary this way. |
| `Summarizer.OtherEntriesKept` | app.py:41-56 | A request never removes or changes another key's entry, fresh or expired, so expired entries stay in the cache. |
| `Summarizer.ProviderCalledOnlyOnValidMiss` | app.py:108-136 | The provider is called exactly when the body is readable, the text is non-empty, there is no hit and the type is known. |
| `Summarizer.StatusByCause` | app.py:114-149 | A 400 happens exactly when text is missing, or when an unknown type meets a miss. A provider failure surfaces as a 500 with a non-empty message. |
| `Summarizer.RepeatWithinHourIsCached` | app.py:117-145 | A request that generated a non-empty summary, repeated less than an hour after the write, is answered from the cache with the same summary. This holds whatever the provider would now return. |
| `Summarizer.RepeatAfterExpiryRegenerates` | app.py:117-145 | The same request repeated an hour or more after the write calls the provider again. It is not answered as cached. |
| `Summarizer.JoinedCacheAnswersInvalidType` | app.py:117-136 | With the key as written, text "a" with the unknown type "b_paragraph" gets 200 from the entry stored for "a_b" as "paragraph". |
| `Summarizer.JoinedCacheServesOtherText` | app.py:37-39 | With the key as written, text "x" requested as "two_paragraph" is served the cached paragraph summary of "x_two". |
| `Summarizer.PairedKeepsTypedKeys` | app.py:138-139 | With the corrected key, the handler only stores keys whose type is known. |
| `Summarizer.PairedRejectsInvalidType` | app.py:126-136 | With the corrected key, an unknown type with non-empty text is always 400, never a cache hit. |
| `Summarizer.PairedCacheIsTransparent` | app.py:117-145 | With the corrected key and a provider that always gives the same answer, a cached answer equals what the provider gives for this text and type. The handler keeps the cache faithful. |

## Findings

| source | as written | input that shows it | evidently intended | confidence | as-written member | corrected member |
|---|---|---|---|---|---|---|
| app.py:37-39 | The key is the digest of `text + "_" + type`. Different (text, type) pairs share it, even when both types are valid. | Request `("x_two", "paragraph")`, then `("x", "two_paragraph")` within the hour. The second gets the first text's paragraph summary, marked cached. | A key unique to each (text, type) pair, as the docstring of `get_cache_key` says. | not executed | `Summarizer.JoinedCacheServesOtherText` | `Summarizer.PairedCacheIsTransparent` |

## Left out

- Flask routing, `render_template`, `jsonify` and JSON parsing are left out. The body is given
  already split into its two members, and the response is a datatype with `Status` giving the
  HTTP code.
- Text or type holding an unpaired surrogate is left out. Python's JSON parser keeps such a
  character, and `.encode()` at app.py:39 then raises, which the handler answers with a 500 before
  any type check. The model's strings are sequences of Unicode scalar values and cannot hold it.
- JSON members that are not strings (numbers, `null`, lists) are left out. `text` and `type`
  are modelled as absent or string-valued.
- CORS and the rate limits (app.py:16-23, 107) are left out. They are external library
  behaviour over wall-clock windows.
- The Gemini calls and their prompts (app.py:30-31, 58-100) are replaced by the `Provider`
  function. The prompts carry no logic. The service's real provider is nondeterministic.
  `PairedCacheIsTransparent` is stated for a provider that always gives the same answer.
- md5 (app.py:39) is modelled by its pre-image, and `datetime.now()` by injected clock readings.
- Loading `.env`, the startup check for the API key (app.py:13, 26-28), logging (app.py:148)
  and `app.run` are environment and I/O.
- Concurrent requests are left out. Two simultaneous misses on the same key would both call the
  provider. The model handles one request at a time.
