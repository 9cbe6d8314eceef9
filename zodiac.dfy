/**
 * The fixed zodiac catalog of bot/utils/zodiac.py: twelve signs in a fixed
 * order, each with its glyph, its Russian name and its date range, and the
 * two read-only accessors over it.
 */
module Zodiac {
  import opened Wrappers

  /** The record a catalog id maps to (`{'emoji', 'ru', 'dates'}`). */
  datatype SignInfo = SignInfo(emoji: string, ru: string, dates: string)

  /** One `(id, record)` pair of the catalog, in the dictionary's insertion order. */
  type CatalogEntry = (string, SignInfo)

  /** `ZODIAC_SIGNS`, in insertion order. */
  const Catalog: seq<CatalogEntry> := [
    ("aries", SignInfo("♈", "Овен", "21 марта - 19 апреля")),
    ("taurus", SignInfo("♉", "Телец", "20 апреля - 20 мая")),
    ("gemini", SignInfo("♊", "Близнецы", "21 мая - 20 июня")),
    ("cancer", SignInfo("♋", "Рак", "21 июня - 22 июля")),
    ("leo", SignInfo("♌", "Лев", "23 июля - 22 августа")),
    ("virgo", SignInfo("♍", "Дева", "23 августа - 22 сентября")),
    ("libra", SignInfo("♎", "Весы", "23 сентября - 22 октября")),
    ("scorpio", SignInfo("♏", "Скорпион", "23 октября - 21 ноября")),
    ("sagittarius", SignInfo("♐", "Стрелец", "22 ноября - 21 декабря")),
    ("capricorn", SignInfo("♑", "Козерог", "22 декабря - 19 января")),
    ("aquarius", SignInfo("♒", "Водолей", "20 января - 18 февраля")),
    ("pisces", SignInfo("♓", "Рыбы", "19 февраля - 20 марта"))
  ]

  /** The ids of a list of catalog entries, in order. */
  function Ids(entries: seq<CatalogEntry>): (ids: seq<string>)
    ensures |ids| == |entries|
    ensures forall i :: 0 <= i < |entries| ==> ids[i] == entries[i].0
  {
    seq(|entries|, i requires 0 <= i < |entries| => entries[i].0)
  }

  /** No id occurs twice. */
  predicate Distinct(ids: seq<string>)
  {
    forall i, j :: 0 <= i < j < |ids| ==> ids[i] != ids[j]
  }

  /** ASCII lower-casing of one character. */
  function LowerChar(c: char): char
  {
    if 'A' <= c <= 'Z' then (c as int + 32) as char else c
  }

  /** `str.lower()`, restricted to ASCII letters. */
  function Lower(s: string): (r: string)
    ensures |r| == |s|
    ensures forall i :: 0 <= i < |s| ==> r[i] == LowerChar(s[i])
  {
    seq(|s|, i requires 0 <= i < |s| => LowerChar(s[i]))
  }

  /**
   * Dictionary `get` over an insertion-ordered list of entries: it misses
   * exactly when the id is not a key, and a hit is one of the entries.
   */
  function Find(entries: seq<CatalogEntry>, id: string): (r: Option<SignInfo>)
    ensures r.None? <==> id !in Ids(entries)
    ensures r.Some? ==> (id, r.value) in entries
  {
    if entries == [] then None
    else
      assert Ids(entries) == [entries[0].0] + Ids(entries[1..]);
      if entries[0].0 == id then Some(entries[0].1)
      else Find(entries[1..], id)
  }

  /**
   * `get_zodiac_info`: lower-cases the argument, then looks it up; `None`
   * stands for `{}`, which comes back exactly for an unknown sign.
   */
  function GetZodiacInfo(sign: string): (r: Option<SignInfo>)
    ensures r.None? <==> Lower(sign) !in GetAllSigns()
    ensures r.Some? ==> (Lower(sign), r.value) in Catalog
  {
    Find(Catalog, Lower(sign))
  }

  /** `get_all_signs`: the catalog ids in insertion order. */
  function GetAllSigns(): (signs: seq<string>)
    ensures signs == ["aries", "taurus", "gemini", "cancer", "leo", "virgo",
                      "libra", "scorpio", "sagittarius", "capricorn", "aquarius", "pisces"]
  {
    Ids(Catalog)
  }

  /** With distinct ids, looking up the i-th id gives the i-th record. */
  lemma {:induction false} FindAt(entries: seq<CatalogEntry>, i: nat)
    requires Distinct(Ids(entries))
    requires i < |entries|
    ensures Find(entries, entries[i].0) == Some(entries[i].1)
  {
    if i > 0 {
      assert Ids(entries)[0] != Ids(entries)[i];
      assert Ids(entries[1..]) == Ids(entries)[1..];
      FindAt(entries[1..], i - 1);
    }
  }

  /** The catalog has twelve entries and its ids are pairwise distinct. */
  lemma CatalogShape()
    ensures |Catalog| == 12
    ensures Distinct(GetAllSigns())
  {
  }

  /** The lookup ignores case: two spellings that lower-case alike give the same record. */
  lemma CaseInsensitive(a: string, b: string)
    requires Lower(a) == Lower(b)
    ensures GetZodiacInfo(a) == GetZodiacInfo(b)
  {
  }

  /** `"LEO"` and `"leo"` give the same record. */
  lemma UpperCaseLeo()
    ensures GetZodiacInfo("LEO") == GetZodiacInfo("leo") == Some(Catalog[4].1)
  {
    assert Lower("LEO") == "leo";
    assert Lower("leo") == "leo";
    CatalogShape();
    FindAt(Catalog, 4);
  }

  /** Every id from `get_all_signs` maps to its catalog record, and every field of it is non-empty. */
  lemma EverySignKnown(i: nat)
    requires i < |GetAllSigns()|
    ensures GetZodiacInfo(GetAllSigns()[i]) == Some(Catalog[i].1)
    ensures Catalog[i].1.emoji != [] && Catalog[i].1.ru != [] && Catalog[i].1.dates != []
  {
    CatalogShape();
    var id := GetAllSigns()[i];
    forall k | 0 <= k < |id| ensures 'a' <= id[k] <= 'z' { }
    assert Lower(id) == id;
    FindAt(Catalog, i);
  }

  /** No catalog id contains `':'`, the separator of cache keys and callback data. */
  lemma IdsColonFree(i: nat)
    requires i < |GetAllSigns()|
    ensures ':' !in GetAllSigns()[i]
  {
  }
}
