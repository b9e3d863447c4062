/**
  The daily cache key of xrate/xrate.go: today's date in the layout
  "2006-01-02" (YYYY-MM-DD) followed by the currency exactly as given.
  The clock is not modelled: the date is a parameter.
*/
module CacheKeys {
  import opened GoBytes
  import opened Numerals

  /** A calendar date as the clock reports it, with a four-digit year. */
  datatype Date = Date(year: int, month: int, day: int)

  type CalendarDate = d: Date | 0 <= d.year <= 9999 && 1 <= d.month <= 12 && 1 <= d.day <= 31
    witness Date(2000, 1, 1)

  /** A cache key, the bytes stored in the key-value store. */
  type Key = Bytes

  const Dash: byte := '-' as int as byte

  /** The date in the layout "2006-01-02". */
  function FormatDate(d: CalendarDate): (s: Bytes)
    ensures |s| == 10
    ensures s[..4] == Digits(d.year, 4) && s[4] == Dash
    ensures s[5..7] == Digits(d.month, 2) && s[7] == Dash
    ensures s[8..] == Digits(d.day, 2)
  {
    Digits(d.year, 4) + [Dash] + Digits(d.month, 2) + [Dash] + Digits(d.day, 2)
  }

  /** Different dates are formatted differently. */
  lemma FormatDateInjective(d1: CalendarDate, d2: CalendarDate)
    requires FormatDate(d1) == FormatDate(d2)
    ensures d1 == d2
  {
    var s1, s2 := FormatDate(d1), FormatDate(d2);
    assert s1[..4] == s2[..4] && s1[5..7] == s2[5..7] && s1[8..] == s2[8..];
    assert Pow10(4) == 10000 && Pow10(2) == 100;
    DigitsInjective(d1.year, d2.year, 4);
    DigitsInjective(d1.month, d2.month, 2);
    DigitsInjective(d1.day, d2.day, 2);
  }

  /** cacheKey: the formatted date followed by the currency's bytes, unchanged (no case folding). */
  function CacheKey(today: CalendarDate, currency: Bytes): (k: Key)
    ensures |k| == 10 + |currency|
    ensures k[..10] == FormatDate(today)
    ensures k[10..] == currency
  {
    FormatDate(today) + currency
  }

  /** The date prefix has a fixed width, so distinct (date, currency) pairs never share a key. */
  lemma CacheKeyInjective(d1: CalendarDate, c1: Bytes, d2: CalendarDate, c2: Bytes)
    requires CacheKey(d1, c1) == CacheKey(d2, c2)
    ensures d1 == d2 && c1 == c2
  {
    var k1, k2 := CacheKey(d1, c1), CacheKey(d2, c2);
    assert k1[..10] == k2[..10];
    FormatDateInjective(d1, d2);
  }

  /** Keys rotate daily and differ per currency: 2024-05-01 vs 2024-05-02 for "USD", and "USD" vs "EUR". */
  lemma CacheKeyExamples()
    ensures CacheKey(Date(2024, 5, 1), Ascii("USD")) != CacheKey(Date(2024, 5, 2), Ascii("USD"))
    ensures CacheKey(Date(2024, 5, 1), Ascii("USD")) != CacheKey(Date(2024, 5, 1), Ascii("EUR"))
  {
    var usd, eur := Ascii("USD"), Ascii("EUR");
    assert usd != eur by {
      assert usd[0] as int == 'U' as int && eur[0] as int == 'E' as int;
    }
    if CacheKey(Date(2024, 5, 1), usd) == CacheKey(Date(2024, 5, 2), usd) {
      CacheKeyInjective(Date(2024, 5, 1), usd, Date(2024, 5, 2), usd);
    }
    if CacheKey(Date(2024, 5, 1), usd) == CacheKey(Date(2024, 5, 1), eur) {
      CacheKeyInjective(Date(2024, 5, 1), usd, Date(2024, 5, 1), eur);
    }
  }

  lemma FormatDateExample()
    ensures FormatDate(Date(2024, 5, 1)) == [50, 48, 50, 52, 45, 48, 53, 45, 48, 49]
  {
    assert Digits(20, 2) == [50, 48];
    assert Digits(2024, 4) == [50, 48, 50, 52];
    assert Digits(5, 2) == [48, 53];
    assert Digits(1, 2) == [48, 49];
  }

  /** The key for 2024-05-01 and "USD" is the text "2024-05-01USD". */
  lemma CacheKeyLayout()
    ensures CacheKey(Date(2024, 5, 1), Ascii("USD")) == Ascii("2024-05-01USD")
  {
    FormatDateExample();
    assert Ascii("2024-05-01USD") == [50, 48, 50, 52, 45, 48, 53, 45, 48, 49] + Ascii("USD");
  }
}
