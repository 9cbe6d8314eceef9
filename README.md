# Horoscope bot: cache-first fetch, translate and store

A Dafny model of the core of a Telegram horoscope bot. A user picks a zodiac
sign from an inline keyboard. The handler parses the button's callback data
and checks the sign against a fixed 12-sign catalog. The horoscope service
then answers from an in-memory TTL cache, or fetches the English text from
an upstream HTTP endpoint, translates it to Russian, stores it and returns it.

Modules, one per source file:

- `Zodiac` (zodiac.dfy): the catalog as an insertion-ordered sequence of `(id, SignInfo)` pairs, the case-insensitive lookup and the id list. These are pure functions over a constant, so nothing can mutate the catalog.
- `Cache` (cache.dfy): class `HoroscopeCache`, a `map<string, Entry>` that its methods update in place, with `"sign:date"` keys and per-entry expiry at `now + ttl`. An entry is stale only when `now > expiresAt`.
- `Translator` (translator.dfy): the wrapper around an arbitrary translation backend. A backend failure gives the input text followed by a fixed note.
- `HoroscopeApi` (horoscope_api.dfy): the JSON response envelope, the fetch as a pure function of the HTTP outcome, and class `HoroscopeService`, whose `GetHoroscope` is the cache-first pipeline. A ghost `fetchCount` counts upstream requests.
- `Keyboard` (keyboard.dfy): the row-chunking loop that lays the catalog's buttons out in rows of three.
- `Handler` (handler.dfy): the callback-data parse that is the keyboard's inverse, and the handler's dispatch without its message texts.
- `Wrappers` (wrappers.dfy): `Option`.

Inputs from the outside world are parameters:

- `now` is the clock, in integer seconds.
- `today` is the date string the source formats from the clock.
- `upstream` maps the request parameters to an `HttpResponse`: a transport error, or a status and a body that may fail to decode.
- `backend` maps English text to a translation, or to `None` when translation fails.

Behaviour worth noting:

- A cached empty string counts as a miss, because the source tests `if cached:`.
- The cache key uses today's date whatever `day` is. `day` only reaches the upstream request.
- The sign catalog is checked in the handler, not in the service. The handler passes the parsed sign on without lower-casing it, so `"zodiac:LEO"` passes the check but is cached and fetched under `"LEO"`.
- A miss on a stale entry evicts it even when the fetch then fails. A failed fetch adds no entry, but the map can still lose the stale one.
- A successful translation may be empty. Only the fallback text is guaranteed non-empty.

## Model

| member | source | states |
|---|---|---|
| Zodiac.GetAllSigns | bot/utils/zodiac.py:31-37 | the ids are exactly aries … pisces, in insertion order |
| Zodiac.CatalogShape | bot/utils/zodiac.py:3-16 | the catalog has 12 entries and `get_all_signs` has no duplicates |
| Zodiac.FindAt | bot/utils/zodiac.py:28 | with distinct ids, a dictionary lookup of the i-th id gives the i-th record |
| Zodiac.Find | bot/utils/zodiac.py:28 | `dict.get`: misses exactly when the id is not a key, and a hit is one of the entries; `FindAt` gives the hit's record |
| Zodiac.GetZodiacInfo | bot/utils/zodiac.py:19-28 | the empty record comes back exactly when the lower-cased argument is not a catalog id; a hit is the catalog record of the lower-cased argument; `CaseInsensitive` and `EverySignKnown` are about it |
| Zodiac.Lower | bot/utils/zodiac.py:28 | lower-casing keeps the length and maps each ASCII capital to its small letter; what the lookup gains from it is `CaseInsensitive` |
| Zodiac.CaseInsensitive | bot/utils/zodiac.py:28 | two arguments that lower-case alike get the same record |
| Zodiac.UpperCaseLeo | bot/utils/zodiac.py:28 | `"LEO"` and `"leo"` both give leo's record |
| Zodiac.EverySignKnown | bot/utils/zodiac.py:3-16 | every id from `get_all_signs` maps to its record, whose glyph, name and dates are non-empty |
| Zodiac.IdsColonFree | bot/utils/zodiac.py:3-16 | no catalog id contains `':'` |
| Cache.CacheKey | bot/utils/cache.py:18-28 | the key is the sign, one colon, then the date; `CacheKeyInjective` shows it identifies the pair |
| Cache.CacheKeyInjective | bot/utils/cache.py:18-28 | for colon-free signs, equal keys imply equal sign and equal date |
| Cache.CacheKeyCollision | bot/utils/cache.py:28 | without that condition, `("a:b","c")` and `("a","b:c")` share a key |
| Cache.HoroscopeCache.constructor | bot/utils/cache.py:9-16 | a new cache is empty and keeps the given TTL |
| Cache.HoroscopeCache.Get | bot/utils/cache.py:30-54 | missing key: `None`, map unchanged; stale entry (`now > expiresAt`): `None` and exactly that key deleted; live entry, including at `now == expiresAt`: its data, map unchanged |
| Cache.HoroscopeCache.Set | bot/utils/cache.py:56-73 | the key now maps to `Entry(data, now + ttl)`, replacing any earlier entry; every other key is unchanged |
| Cache.HoroscopeCache.Clear | bot/utils/cache.py:75-77 | the map is empty |
| Cache.HoroscopeCache.CleanupExpired | bot/utils/cache.py:79-87 | the new map is `Sweep` of the old one at `now` |
| Cache.Sweep | bot/utils/cache.py:79-87 | keeps exactly the entries with `now <= expiresAt`, each unchanged; `CleanupExpired` is proved to compute it, and `SweepIdempotent` and `SweepLeavesNoStale` are about it |
| Cache.SweepIdempotent | bot/utils/cache.py:79-87 | sweeping twice at one instant equals sweeping once |
| Cache.SweepLeavesNoStale | bot/utils/cache.py:79-87 | after a sweep no remaining entry is stale at that instant |
| Cache.SetThenGet | bot/utils/cache.py:50-54 | with `ttl >= 0`, `set` then `get` at the same instant returns the stored value |
| Cache.OverwriteThenGet | bot/utils/cache.py:68-73 | with `ttl >= 0`, two `set`s on one key and then `get` return the second value |
| Cache.GetAtExpiry | bot/utils/cache.py:50 | a `get` exactly at `now + ttl` still returns the value, because the comparison is strict |
| Cache.GetAfterExpiry | bot/utils/cache.py:50-52 | a `get` after `now + ttl` returns `None` and removes the entry |
| Translator.TranslateToRussian | bot/services/translator.py:16-32 | the backend's answer when it has one; otherwise the input text, kept whole, followed by the fixed note; `FallbackNeverEmpty` shows the fallback is never empty |
| Translator.FallbackNeverEmpty | bot/services/translator.py:29-32 | the fallback result is never empty, even for an empty input |
| HoroscopeApi.ExtractHoroscope | bot/services/horoscope_api.py:75-84 | a text comes back exactly when the body is an object with a truthy `success` and an object `data` whose `horoscope_data` is missing or a string; it is that string, or `""` when the field is missing |
| HoroscopeApi.EnvelopeYieldsText | bot/services/horoscope_api.py:78-81 | the documented envelope gives its `horoscope_data` |
| HoroscopeApi.MissingFieldYieldsEmpty | bot/services/horoscope_api.py:80 | a successful envelope without `horoscope_data` gives `""` |
| HoroscopeApi.FalsySuccessYieldsNone | bot/services/horoscope_api.py:79-84 | a missing or falsy `success` gives `None` |
| HoroscopeApi.Truthy | bot/services/horoscope_api.py:79 | Python truthiness: falsy exactly for null, false, zero, `""`, `[]` and `{}`; `FalsySuccessYieldsNone` uses it |
| HoroscopeApi.FetchFromApi | bot/services/horoscope_api.py:55-91 | a transport error, a non-2xx status or an undecodable body gives `None`; otherwise the envelope test decides; it is a function, so it cannot touch the cache; `TimeoutScenario` and `LeoScenario` apply it |
| HoroscopeApi.HoroscopeService.constructor | bot/services/horoscope_api.py:17-20 | a new service owns a fresh, empty cache with the configured TTL and has made no request |
| HoroscopeApi.HoroscopeService.GetHoroscope | bot/services/horoscope_api.py:22-53 | the key is `(sign, today)` whatever `day` is; on a live non-empty entry it returns that entry with no request and no change; otherwise exactly one request; an empty or failed fetch returns `None` and changes the map only by evicting a stale entry; a non-empty text is translated, stored with expiry `now + ttl` and returned |
| HoroscopeApi.RepeatedRequest | bot/services/horoscope_api.py:33-49 | two requests for one sign on one day, with any two `day`s, the second at any instant from the first up to the expiry of the entry the first leaves: a non-empty first answer is repeated, after one request on a miss or none on a hit |
| HoroscopeApi.FailureIsRetried | bot/services/horoscope_api.py:41-50 | after a `None` answer, any later request for the same sign and date, at any instant and with any `day`, fetches again (two requests in all) |
| HoroscopeApi.EmptyTranslationIsRefetched | bot/services/horoscope_api.py:34-37 | after an empty translation, any later request for the same sign and date, at any instant and with any `day`, fetches again (two requests in all); that the empty text is stored is `GetHoroscope`'s ensures |
| HoroscopeApi.LeoScenario | bot/services/horoscope_api.py:33-49 | empty cache, leo on 2024-01-15: the translated text is returned twice, stored under `leo:2024-01-15`, after one request |
| HoroscopeApi.TimeoutScenario | bot/services/horoscope_api.py:86-88 | a transport error on an empty cache gives `None` and leaves the cache empty |
| Keyboard.ButtonFor | bot/keyboards/zodiac_keyboard.py:17-20 | the label is `emoji + " " + ru`; the callback data is `"zodiac:"` followed by the sign id; `KeyboardRoundTrip` shows the handler parses it back |
| Keyboard.LayoutRows | bot/keyboards/zodiac_keyboard.py:12-29 | flattening the rows gives one button per entry, in order; every row holds 1 to 3 buttons; all but the last hold 3; there are ⌈n/3⌉ rows; the last holds `(n-1) mod 3 + 1` |
| Keyboard.GetZodiacKeyboard | bot/keyboards/zodiac_keyboard.py:6-31 | the whole catalog in order, in 4 full rows of 3 |
| Handler.AfterFirst | bot/handlers/horoscope.py:33 | `split(':', 1)[1]`: the input is a colon-free part, one colon, then the result; `AfterFirstSkips` shows that part is unique |
| Handler.ParseCallback | bot/handlers/horoscope.py:29-33 | a sign comes back exactly when the data starts with `"zodiac:"`, and it is shorter than the data; `ParseCallbackRoundTrip` and `ParseCallbackExact` give which sign |
| Handler.ParseCallbackRoundTrip | bot/handlers/horoscope.py:29-33 | the prefix check and the split at the first colon recover any sign from `"zodiac:" + sign`, even a sign containing colons |
| Handler.ParseCallbackExact | bot/handlers/horoscope.py:29-33 | only data equal to `"zodiac:" + s` parses, and it parses to `s` |
| Handler.KeyboardRoundTrip | bot/keyboards/zodiac_keyboard.py:18 | every keyboard button's data parses back to its catalog sign, and that sign is known |
| Handler.HandleCallback | bot/handlers/horoscope.py:28-49 | data without the prefix is ignored, and an unknown sign is rejected, both with no request and no cache change; a known sign goes to the service with day `"today"`; a hit shows the cached text with no request and no change; a miss costs exactly one request; a failed or empty fetch gives the apology and only the stale-entry eviction; otherwise the translation is stored with expiry `now + ttl` and shown, or the apology when it is empty |

## Left out

- Telegram transport, message texts and formatting (bot/main.py, bot/handlers/start.py, the message bodies of bot/handlers/horoscope.py): presentation and I/O.
- async/await and the race between concurrent misses on one key, where the last write wins: the model runs one request at a time.
- httpx, the 10-second timeout and JSON decoding: a timeout is a `TransportError`, and the decoded body is a parameter. Floating-point JSON numbers are not modelled; only integers are.
- The clock: `now` and `today` are parameters, and one request uses a single `now`. The source reads the clock separately for the date, the expiry test and the expiry instant.
- The `date=None` default of `get` and `set`, which reads the clock: the pipeline always passes the date.
- The `ttl_seconds=86400` default of the cache's constructor: the service always passes the configured TTL.
- Logging.
- bot/config.py: environment variables and the token check. `CACHE_TTL` is the constructor's `ttl` argument, any integer in the range named under `Cache.HoroscopeCache.Set` below; the round-trip facts assume `ttl >= 0`.
- googletrans: the backend is an arbitrary function.
- The `except Exception` of `get_horoscope` (lines 51-53): the fetch and the translator catch their own errors, so the only path to it is the overflow described next, which the model does not have.
- Cache.HoroscopeCache.Set: computes `now + ttl` on unbounded integers. The source adds a `timedelta` to the current `datetime`, which raises `OverflowError` once the result leaves years 1 to 9999 (a TTL above about 2.5e11 or below about -6.4e10 seconds). The model is faithful only for TTLs inside that range.
- HoroscopeApi.HoroscopeService.GetHoroscope: for a TTL outside that range, the source's `set` raises, and the `except` at lines 51-53 returns `None` with nothing stored; the model returns the translation and stores it. The model is faithful only for TTLs inside that range.
- The order in which `cleanup_expired` deletes: the model deletes the stale keys in an arbitrary order, and the result does not depend on it.
- Zodiac.Lower: lower-cases ASCII letters only, where Python's `str.lower` also folds other letters. Lookup results agree all the same. Every catalog id is lower-case ASCII without `k`. The only non-ASCII characters that lower-case to ASCII are U+212A, which becomes `k`, and U+0130, which becomes two characters.
- HoroscopeApi.ExtractHoroscope: a `horoscope_data` that is present but not a string gives `None`. The source returns that value instead. A falsy one (null, `0`, `false`, `[]`, `{}`) is then stopped by the truthiness test at line 42, so the pipeline's result is `None` as in the model. Only a truthy non-string differs, because the source passes it on to the translator.
