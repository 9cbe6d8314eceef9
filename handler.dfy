/**
 * The callback dispatch of bot/handlers/horoscope.py: the callback data a
 * keyboard button sends is checked for the `"zodiac:"` prefix and split at
 * its first colon; an unknown sign is rejected before any request; a known
 * one is passed to the horoscope service.
 */
module Handler {
  import opened Wrappers
  import opened Zodiac
  import opened Keyboard
  import opened Cache
  import opened Translator
  import opened HoroscopeApi

  /**
   * `s.split(c, 1)[1]`: everything after the first occurrence of `c`, so
   * `s` is a `c`-free part, then `c`, then the result.
   */
  function AfterFirst(s: string, c: char): (r: string)
    requires c in s
    ensures |r| < |s|
    ensures s[|s| - |r| - 1] == c && s[|s| - |r|..] == r
    ensures c !in s[..|s| - |r| - 1]
  {
    if s[0] == c then s[1..] else AfterFirst(s[1..], c)
  }

  /** Skipping a part without the separator, then the separator, leaves the rest. */
  lemma {:induction false} AfterFirstSkips(p: string, c: char, rest: string)
    requires c !in p
    ensures AfterFirst(p + [c] + rest, c) == rest
  {
    if p != [] {
      assert (p + [c] + rest)[1..] == p[1..] + [c] + rest;
      AfterFirstSkips(p[1..], c, rest);
    }
  }

  /**
   * The prefix test and the split of `horoscope_callback`: `None` unless the
   * data starts with `"zodiac:"`, else the part after the first colon.
   */
  function ParseCallback(data: string): (r: Option<string>)
    ensures r.Some? <==> CallbackPrefix <= data
    ensures r.Some? ==> |r.value| < |data|
  {
    if CallbackPrefix <= data then
      assert data[|CallbackPrefix| - 1] == ':';
      Some(AfterFirst(data, ':'))
    else None
  }

  /** Parsing recovers any sign from its callback data, even a sign that contains colons. */
  lemma ParseCallbackRoundTrip(sign: string)
    ensures ParseCallback(CallbackPrefix + sign) == Some(sign)
  {
    assert CallbackPrefix + sign == "zodiac" + [':'] + sign;
    AfterFirstSkips("zodiac", ':', sign);
  }

  /** Only callback data of the form `"zodiac:" + sign` parses, and it parses to that sign. */
  lemma ParseCallbackExact(data: string, sign: string)
    requires ParseCallback(data) == Some(sign)
    ensures data == CallbackPrefix + sign
  {
    var rest := data[|CallbackPrefix|..];
    assert data == CallbackPrefix + rest;
    ParseCallbackRoundTrip(rest);
  }

  /** Every keyboard button parses back to its catalog sign, and that sign is known. */
  lemma KeyboardRoundTrip(i: nat)
    requires i < |Catalog|
    ensures ParseCallback(Buttons(Catalog)[i].callbackData) == Some(Catalog[i].0)
    ensures GetZodiacInfo(Catalog[i].0) == Some(Catalog[i].1)
  {
    var b := Buttons(Catalog)[i];
    assert b.callbackData == CallbackPrefix + Catalog[i].0;
    ParseCallbackRoundTrip(Catalog[i].0);
    EverySignKnown(i);
  }

  /** What the handler shows the user, without its wording. */
  datatype Reply =
    | Ignored                                  // the data lacks the prefix: the handler only logs
    | UnknownSign                              // the sign is not in the catalog
    | Horoscope(info: SignInfo, text: string)  // the horoscope message
    | Unavailable(info: SignInfo)              // the apology, with the keyboard again

  /**
   * `horoscope_callback` without the messaging: bad data is ignored and an
   * unknown sign rejected, both without touching the service; a known sign
   * goes to the service, whose empty or missing answer becomes the apology.
   * The parsed sign is passed on as it is, not lower-cased.
   */
  method HandleCallback(service: HoroscopeService, data: string, now: int, today: string,
                        upstream: FetchRequest -> HttpResponse, backend: string -> Option<string>)
    returns (reply: Reply)
    modifies service, service.cache
    ensures ParseCallback(data).None? ==>
              reply == Ignored && service.fetchCount == old(service.fetchCount)
              && service.cache.entries == old(service.cache.entries)
    ensures ParseCallback(data).Some? && GetZodiacInfo(ParseCallback(data).value).None? ==>
              reply == UnknownSign && service.fetchCount == old(service.fetchCount)
              && service.cache.entries == old(service.cache.entries)
    ensures ParseCallback(data).Some? && GetZodiacInfo(ParseCallback(data).value).Some? ==>
              var sign := ParseCallback(data).value;
              var info := GetZodiacInfo(sign).value;
              var key := CacheKey(sign, today);
              var m := old(service.cache.entries);
              var fetched := FetchFromApi(upstream(FetchRequest(sign, "today")));
              if CacheHit(m, key, now) then
                reply == Horoscope(info, m[key].data) && service.cache.entries == m
                && service.fetchCount == old(service.fetchCount)
              else
                service.fetchCount == old(service.fetchCount) + 1 &&
                if fetched.None? || fetched.value == "" then
                  reply == Unavailable(info) && service.cache.entries == AfterLookup(m, key, now)
                else
                  var translated := TranslateToRussian(fetched.value, backend);
                  reply == (if translated != "" then Horoscope(info, translated) else Unavailable(info))
                  && service.cache.entries == AfterLookup(m, key, now)[key := Entry(translated, now + service.cache.ttl)]
  {
    var parsed := ParseCallback(data);
    if parsed.None? {
      return Ignored;
    }
    var sign := parsed.value;
    var zodiacInfo := GetZodiacInfo(sign);
    if zodiacInfo.None? {
      return UnknownSign;
    }
    var horoscopeText := service.GetHoroscope(sign, "today", now, today, upstream, backend);
    if horoscopeText.Some? && horoscopeText.value != "" {
      return Horoscope(zodiacInfo.value, horoscopeText.value);
    }
    return Unavailable(zodiacInfo.value);
  }
}
