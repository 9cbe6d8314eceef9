/**
 * The horoscope service of bot/services/horoscope_api.py: the upstream
 * response envelope, the fetch that turns a response into text or `None`,
 * and the cache-first pipeline fetch -> translate -> store.
 *
 * The network is an oracle `upstream` from the request parameters to a
 * response; the clock is the pair `now` (seconds) and `today` (the date
 * string the source formats from the clock).
 */
module HoroscopeApi {
  import opened Wrappers
  import opened Cache
  import opened Translator

  /** A decoded JSON value. */
  datatype Json =
    | Null
    | Bool(b: bool)
    | Num(n: int)
    | Str(s: string)
    | Arr(items: seq<Json>)
    | Obj(fields: map<string, Json>)

  /** Python truthiness of a decoded JSON value: only null, false, zero and the empty containers are falsy. */
  predicate Truthy(j: Json)
    ensures !Truthy(j) <==> j in {Null, Bool(false), Num(0), Str(""), Arr([]), Obj(map[])}
  {
    match j
    case Null => false
    case Bool(b) => b
    case Num(n) => n != 0
    case Str(s) => s != []
    case Arr(items) => items != []
    case Obj(fields) => fields != map[]
  }

  /** The query parameters of one upstream request. */
  datatype FetchRequest = FetchRequest(sign: string, day: string)

  /**
   * What one upstream request yields: a transport error or timeout, or a
   * response with its status code and its body (`None` when the body is not
   * valid JSON).
   */
  datatype HttpResponse =
    | TransportError
    | Response(status: int, body: Option<Json>)

  /** The shape the upstream documents: `{"success": true, "data": {"date": …, "horoscope_data": …}}`. */
  function Envelope(text: string, date: string): Json
  {
    Obj(map["success" := Bool(true), "status" := Num(200),
            "data" := Obj(map["date" := Str(date), "horoscope_data" := Str(text)])])
  }

  /**
   * The envelope test of `_fetch_from_api`: a truthy `success` and a `data`
   * key give `data.horoscope_data`, or `""` when that field is missing; any
   * other shape gives `None`. A body or `data` value that is not an object
   * makes `.get` raise, which the fetch turns into `None`.
   */
  function ExtractHoroscope(body: Json): (r: Option<string>)
    ensures r.Some? ==> body.Obj? && "success" in body.fields && Truthy(body.fields["success"])
                        && "data" in body.fields && body.fields["data"].Obj?
    ensures r.Some? && "horoscope_data" in body.fields["data"].fields ==>
              body.fields["data"].fields["horoscope_data"] == Str(r.value)
    ensures r.Some? && "horoscope_data" !in body.fields["data"].fields ==> r.value == ""
    ensures body.Obj? && "success" in body.fields && Truthy(body.fields["success"])
            && "data" in body.fields && body.fields["data"].Obj?
            && ("horoscope_data" in body.fields["data"].fields ==>
                  body.fields["data"].fields["horoscope_data"].Str?)
            ==> r.Some?
  {
    match body
    case Obj(fields) =>
      if "success" in fields && Truthy(fields["success"]) && "data" in fields then
        match fields["data"]
        case Obj(data) =>
          if "horoscope_data" !in data then Some("")
          else (match data["horoscope_data"]
                case Str(text) => Some(text)
                case _ => None)
        case _ => None
      else None
    case _ => None
  }

  /**
   * `_fetch_from_api` after the request: a non-2xx status, a transport error
   * or an undecodable body gives `None`; otherwise the envelope test decides.
   */
  function FetchFromApi(response: HttpResponse): (r: Option<string>)
    ensures response.TransportError? ==> r == None
    ensures response.Response? && !(200 <= response.status < 300) ==> r == None
    ensures response.Response? && response.body == None ==> r == None
    ensures response.Response? && 200 <= response.status < 300 && response.body.Some? ==>
              r == ExtractHoroscope(response.body.value)
  {
    match response
    case TransportError => None
    case Response(status, body) =>
      if !(200 <= status < 300) then None
      else if body.None? then None
      else ExtractHoroscope(body.value)
  }

  /** A documented envelope yields its text. */
  lemma EnvelopeYieldsText(text: string, date: string)
    ensures ExtractHoroscope(Envelope(text, date)) == Some(text)
  {
  }

  /** A successful envelope without `horoscope_data` yields the empty text. */
  lemma MissingFieldYieldsEmpty(date: string)
    ensures ExtractHoroscope(Obj(map["success" := Bool(true), "data" := Obj(map["date" := Str(date)])]))
            == Some("")
  {
  }

  /** A falsy `success` yields `None` whatever `data` holds. */
  lemma FalsySuccessYieldsNone(fields: map<string, Json>)
    requires "success" !in fields || !Truthy(fields["success"])
    ensures ExtractHoroscope(Obj(fields)) == None
  {
  }

  /** Whether the cache answers a request by itself: a live entry with a non-empty (truthy) value. */
  predicate CacheHit(m: map<string, Entry>, key: string, now: int)
  {
    key in m && !Expired(m[key], now) && m[key].data != ""
  }

  /** The map after the cache lookup: a stale entry for the key is evicted. */
  function AfterLookup(m: map<string, Entry>, key: string, now: int): (r: map<string, Entry>)
    ensures key in m && Expired(m[key], now) ==> r == m - {key}
    ensures !(key in m && Expired(m[key], now)) ==> r == m
  {
    if key in m && Expired(m[key], now) then m - {key} else m
  }

  /** `HoroscopeService`: the cache it owns, and a count of upstream requests for the proofs. */
  class HoroscopeService {
    const cache: HoroscopeCache
    ghost var fetchCount: nat

    /** `__init__`: a service over an empty cache with the configured time to live. */
    constructor (ttl: int)
      ensures fresh(cache) && cache.entries == map[] && cache.ttl == ttl && fetchCount == 0
    {
      cache := new HoroscopeCache(ttl);
      fetchCount := 0;
    }

    /**
     * `get_horoscope`: the cache key uses `today` and never `day`; a live
     * non-empty entry is returned without a request; otherwise exactly one
     * request is made, an empty or failed fetch returns `None` without a
     * cache write, and a non-empty text is translated, stored with expiry
     * `now + ttl` and returned.
     */
    method GetHoroscope(sign: string, day: string, now: int, today: string,
                        upstream: FetchRequest -> HttpResponse, backend: string -> Option<string>)
      returns (r: Option<string>)
      modifies this, cache
      ensures var key := CacheKey(sign, today);
        var m := old(cache.entries);
        var fetched := FetchFromApi(upstream(FetchRequest(sign, day)));
        if CacheHit(m, key, now) then
          r == Some(m[key].data) && cache.entries == m && fetchCount == old(fetchCount)
        else
          fetchCount == old(fetchCount) + 1 &&
          if fetched.None? || fetched.value == "" then
            r == None && cache.entries == AfterLookup(m, key, now)
          else
            var translated := TranslateToRussian(fetched.value, backend);
            r == Some(translated) &&
            cache.entries == AfterLookup(m, key, now)[key := Entry(translated, now + cache.ttl)]
    {
      var dateStr := today;
      var cached := cache.Get(sign, dateStr, now);
      if cached.Some? && cached.value != "" {
        return cached;
      }
      fetchCount := fetchCount + 1;
      var horoscopeText := FetchFromApi(upstream(FetchRequest(sign, day)));
      if horoscopeText.Some? && horoscopeText.value != "" {
        var translated := TranslateToRussian(horoscopeText.value, backend);
        cache.Set(sign, translated, dateStr, now);
        return Some(translated);
      }
      return None;
    }
  }

  /**
   * Two requests for one sign on one day, the second no later than the entry
   * the first leaves expires: whatever the two `day` arguments, a non-empty
   * first answer is repeated by the second, and at most one upstream request
   * is made (exactly one when the first call missed the cache).
   */
  method RepeatedRequest(s: HoroscopeService, sign: string, day1: string, day2: string,
                         now1: int, now2: int, today: string,
                         up1: FetchRequest -> HttpResponse, up2: FetchRequest -> HttpResponse,
                         backend: string -> Option<string>)
    returns (r1: Option<string>, r2: Option<string>)
    requires now1 <= now2
    requires !CacheHit(s.cache.entries, CacheKey(sign, today), now1) ==> now2 <= now1 + s.cache.ttl
    requires CacheHit(s.cache.entries, CacheKey(sign, today), now1) ==>
               now2 <= s.cache.entries[CacheKey(sign, today)].expiresAt
    modifies s, s.cache
    ensures r1.Some? && r1.value != "" ==> r2 == r1
    ensures r1.Some? && r1.value != "" ==>
              s.fetchCount == old(s.fetchCount) + (if CacheHit(old(s.cache.entries), CacheKey(sign, today), now1) then 0 else 1)
  {
    r1 := s.GetHoroscope(sign, day1, now1, today, up1, backend);
    r2 := s.GetHoroscope(sign, day2, now2, today, up2, backend);
  }

  /** A failed request is not cached: any later request for the sign and date fetches again. */
  method FailureIsRetried(s: HoroscopeService, sign: string, day1: string, day2: string,
                          now1: int, now2: int, today: string,
                          up1: FetchRequest -> HttpResponse, up2: FetchRequest -> HttpResponse,
                          backend: string -> Option<string>)
    returns (r1: Option<string>, r2: Option<string>)
    modifies s, s.cache
    ensures r1 == None ==> s.fetchCount == old(s.fetchCount) + 2
  {
    r1 := s.GetHoroscope(sign, day1, now1, today, up1, backend);
    r2 := s.GetHoroscope(sign, day2, now2, today, up2, backend);
  }

  /** An empty translation does not pass the truthiness test: any later request for the sign and date fetches again. */
  method EmptyTranslationIsRefetched(s: HoroscopeService, sign: string, day1: string, day2: string,
                                     now1: int, now2: int, today: string,
                                     up1: FetchRequest -> HttpResponse, up2: FetchRequest -> HttpResponse,
                                     backend: string -> Option<string>)
    returns (r1: Option<string>, r2: Option<string>)
    modifies s, s.cache
    ensures r1 == Some("") ==> s.fetchCount == old(s.fetchCount) + 2
  {
    r1 := s.GetHoroscope(sign, day1, now1, today, up1, backend);
    r2 := s.GetHoroscope(sign, day2, now2, today, up2, backend);
  }

  /**
   * The worked example: an empty cache, "leo" on 2024-01-15, an upstream
   * answering "Today is great." and a translation to "Сегодня отличный день.";
   * the answer is stored and a second request is served from the cache.
   */
  method LeoScenario(s: HoroscopeService, now: int,
                     upstream: FetchRequest -> HttpResponse, backend: string -> Option<string>)
    returns (r1: Option<string>, r2: Option<string>)
    requires s.cache.entries == map[] && s.cache.ttl >= 0
    requires upstream(FetchRequest("leo", "today")) == Response(200, Some(Envelope("Today is great.", "Jan 15, 2024")))
    requires backend("Today is great.") == Some("Сегодня отличный день.")
    modifies s, s.cache
    ensures r1 == r2 == Some("Сегодня отличный день.")
    ensures s.cache.entries == map[CacheKey("leo", "2024-01-15") := Entry("Сегодня отличный день.", now + s.cache.ttl)]
    ensures s.fetchCount == old(s.fetchCount) + 1
  {
    EnvelopeYieldsText("Today is great.", "Jan 15, 2024");
    r1 := s.GetHoroscope("leo", "today", now, "2024-01-15", upstream, backend);
    r2 := s.GetHoroscope("leo", "today", now, "2024-01-15", upstream, backend);
  }

  /** A timed-out request on an empty cache returns `None` and leaves the cache empty. */
  method TimeoutScenario(s: HoroscopeService, now: int, today: string,
                         upstream: FetchRequest -> HttpResponse, backend: string -> Option<string>)
    returns (r: Option<string>)
    requires s.cache.entries == map[]
    requires upstream(FetchRequest("pisces", "today")) == TransportError
    modifies s, s.cache
    ensures r == None && s.cache.entries == map[]
  {
    r := s.GetHoroscope("pisces", "today", now, today, upstream, backend);
  }
}
