/** What the conversion service promises, proved about the model of Rates. */
module XrateProperties {
  import opened Wrappers
  import opened GoBytes
  import opened Decimal
  import opened CacheKeys
  import opened Tables
  import opened Database
  import opened Xrate

  /** An empty currency is rejected first: whatever the amount, parser or provider, and the store is untouched. */
  lemma EmptyCurrencyFirst(entries: map<Key, Bytes>, newFromString: ParseDecimal, unmarshal: Unmarshal,
                           provider: Provider, today: CalendarDate, amount: Bytes)
    ensures Respond(entries, newFromString, unmarshal, provider, today, amount, []) == (Err(ErrEmptyCurr), entries)
  {
  }

  /** A non-empty currency with an amount the parser rejects gives ErrParseAmount, without touching the store. */
  lemma UnparsableAmountRejected(entries: map<Key, Bytes>, newFromString: ParseDecimal, unmarshal: Unmarshal,
                                 provider: Provider, today: CalendarDate, amount: Bytes, currency: Bytes)
    requires currency != [] && newFromString(amount) == None
    ensures Respond(entries, newFromString, unmarshal, provider, today, amount, currency) == (Err(ErrParseAmount), entries)
  {
  }

  /** The empty amount is one the parser rejects: with a non-empty currency it gives ErrParseAmount. */
  lemma EmptyAmountRejected(entries: map<Key, Bytes>, newFromString: ParseDecimal, unmarshal: Unmarshal,
                            provider: Provider, today: CalendarDate, currency: Bytes)
    requires currency != []
    ensures Respond(entries, newFromString, unmarshal, provider, today, [], currency) == (Err(ErrParseAmount), entries)
  {
  }

  /**
    On a cache miss followed by a successful fetch, the response is the
    freshly fetched table converted, and its raw body is stored under the key.
  */
  lemma MissThenFetchConverts(entries: map<Key, Bytes>, newFromString: ParseDecimal, unmarshal: Unmarshal,
                              provider: Provider, today: CalendarDate, amount: Bytes, currency: Bytes,
                              am: Dec, body: Bytes, table: FixerRates)
    requires currency != [] && newFromString(amount) == Some(am)
    requires Lookup(entries, unmarshal, CacheKey(today, currency)).Failure?
    requires provider(RequestURL(currency)) == Body(body)
    requires unmarshal(body) == Some(table)
    ensures Respond(entries, newFromString, unmarshal, provider, today, amount, currency)
         == (Ok(Rates(am, currency, Converted(table.rates, am))), entries[CacheKey(today, currency) := body])
  {
  }

  /** On a cache hit the provider is never consulted, the store is not written, and the cached table is converted. */
  lemma CacheHitSkipsProvider(entries: map<Key, Bytes>, newFromString: ParseDecimal, unmarshal: Unmarshal,
                              provider: Provider, today: CalendarDate, amount: Bytes, currency: Bytes,
                              am: Dec, table: FixerRates)
    requires currency != [] && newFromString(amount) == Some(am)
    requires Lookup(entries, unmarshal, CacheKey(today, currency)) == Success(table)
    ensures Respond(entries, newFromString, unmarshal, provider, today, amount, currency)
         == (Ok(Rates(am, currency, Converted(table.rates, am))), entries)
  {
  }

  /** A successful response echoes the currency verbatim and the amount as parsed, and converts some table's every rate. */
  lemma SuccessShape(entries: map<Key, Bytes>, newFromString: ParseDecimal, unmarshal: Unmarshal,
                     provider: Provider, today: CalendarDate, amount: Bytes, currency: Bytes)
    requires Respond(entries, newFromString, unmarshal, provider, today, amount, currency).0.Ok?
    ensures var r := Respond(entries, newFromString, unmarshal, provider, today, amount, currency).0.rates;
      && r.currency == currency
      && newFromString(amount) == Some(r.amount)
      && exists table: FixerRates :: r.converted == Converted(table.rates, r.amount)
  {
    var key := CacheKey(today, currency);
    var table := Resolve(entries, unmarshal, provider, currency, key).0.value;
    assert Respond(entries, newFromString, unmarshal, provider, today, amount, currency).0.rates.converted
        == Converted(table.rates, newFromString(amount).value);
  }

  /** The only errors Rates returns are the two validation errors. */
  lemma OnlyValidationErrors(entries: map<Key, Bytes>, newFromString: ParseDecimal, unmarshal: Unmarshal,
                             provider: Provider, today: CalendarDate, amount: Bytes, currency: Bytes)
    ensures var resp := Respond(entries, newFromString, unmarshal, provider, today, amount, currency).0;
      resp.Err? ==> resp.error == ErrEmptyCurr || resp.error == ErrParseAmount
  {
  }

  /** The defect: a cache miss followed by a failed fetch crashes instead of returning an error. */
  lemma MissThenFailedFetchPanics(entries: map<Key, Bytes>, newFromString: ParseDecimal, unmarshal: Unmarshal,
                                  provider: Provider, today: CalendarDate, amount: Bytes, currency: Bytes)
    requires currency != [] && newFromString(amount).Some?
    requires Lookup(entries, unmarshal, CacheKey(today, currency)).Failure?
    requires FetchOutcome(entries, unmarshal, provider, currency, CacheKey(today, currency)).0.Failure?
    ensures Respond(entries, newFromString, unmarshal, provider, today, amount, currency) == (Panic, entries)
  {
  }

  /** An input that shows the crash: an empty store and an unreachable provider. */
  lemma PanicExample(newFromString: ParseDecimal, unmarshal: Unmarshal, today: CalendarDate)
    requires newFromString(Ascii("200")) == Some(Dec(200, 0))
    ensures Respond(map[], newFromString, unmarshal, _ => RequestFailed, today, Ascii("200"), Ascii("SEK")) == (Panic, map[])
  {
  }

  /**
    The store changes only by the provider's raw body, unmodified, stored
    under the same key Get was asked for, and only once that body parsed.
  */
  lemma StoreWriteOnlyAfterParse(entries: map<Key, Bytes>, newFromString: ParseDecimal, unmarshal: Unmarshal,
                                 provider: Provider, today: CalendarDate, amount: Bytes, currency: Bytes)
    ensures var after := Respond(entries, newFromString, unmarshal, provider, today, amount, currency).1;
      var fetched := provider(RequestURL(currency));
      after == entries
      || (&& currency != []
          && newFromString(amount).Some?
          && Lookup(entries, unmarshal, CacheKey(today, currency)).Failure?
          && fetched.Body?
          && unmarshal(fetched.body).Some?
          && after == entries[CacheKey(today, currency) := fetched.body])
  {
  }

  /**
    After a successful call, a later call on the same date with the same
    currency finds the stored entry, and with the same amount it gives the
    same response without consulting the provider or writing the store.
  */
  lemma SecondCallHitsCache(entries: map<Key, Bytes>, newFromString: ParseDecimal, unmarshal: Unmarshal,
                            provider: Provider, later: Provider, today: CalendarDate, amount: Bytes, currency: Bytes)
    requires Respond(entries, newFromString, unmarshal, provider, today, amount, currency).0.Ok?
    ensures var (resp, after) := Respond(entries, newFromString, unmarshal, provider, today, amount, currency);
      && Lookup(after, unmarshal, CacheKey(today, currency)).Success?
      && Respond(after, newFromString, unmarshal, later, today, amount, currency) == (resp, after)
  {
    var key := CacheKey(today, currency);
    var am := newFromString(amount).value;
    var (fr, after) := Resolve(entries, unmarshal, provider, currency, key);
    assert Lookup(after, unmarshal, key) == Success(fr.value);
    CacheHitSkipsProvider(after, newFromString, unmarshal, later, today, amount, currency, am, fr.value);
  }

  /**
    The corrected Rates never crashes, agrees with Rates whenever Rates does
    not crash, and where Rates crashes returns the error of fetchRates.
  */
  lemma CheckedAgreesUnlessPanic(entries: map<Key, Bytes>, newFromString: ParseDecimal, unmarshal: Unmarshal,
                                 provider: Provider, today: CalendarDate, amount: Bytes, currency: Bytes)
    ensures var asWritten := Respond(entries, newFromString, unmarshal, provider, today, amount, currency);
      var checked := RespondChecked(entries, newFromString, unmarshal, provider, today, amount, currency);
      && checked.0 != Panic
      && checked.1 == asWritten.1
      && (asWritten.0 != Panic ==> checked == asWritten)
      && (asWritten.0 == Panic ==>
            checked.0 == Err(Upstream(FetchOutcome(entries, unmarshal, provider, currency, CacheKey(today, currency)).0.error)))
  {
  }

  /** A table whose only rate is 1 (written "1" or "1.0") converts the amount to itself rounded to two places. */
  lemma UnitRateRoundsAmount(currency: Bytes, amount: Dec)
    ensures Converted(map[currency := Dec(1, 0)], amount) == map[currency := Round(amount, 2)]
    ensures Converted(map[currency := Dec(10, -1)], amount) == map[currency := Round(amount, 2)]
  {
    assert Mul(Dec(1, 0), amount) == amount;
    var tenths := Mul(Dec(10, -1), amount);
    assert CoefAt(amount, tenths.exp) == amount.coef * 10;
    RoundSameValue(tenths, amount, 2);
  }

  /** Amount "200" in "SEK" with the cached table {SEK: 1} gives {SEK: 200.00}. */
  lemma CachedSekScenario(entries: map<Key, Bytes>, newFromString: ParseDecimal, unmarshal: Unmarshal,
                          provider: Provider, today: CalendarDate)
    requires newFromString(Ascii("200")) == Some(Dec(200, 0))
    requires CacheKey(today, Ascii("SEK")) in entries
    requires unmarshal(entries[CacheKey(today, Ascii("SEK"))])
          == Some(FixerRates(Ascii("SEK"), [], map[Ascii("SEK") := Dec(1, 0)]))
    ensures Respond(entries, newFromString, unmarshal, provider, today, Ascii("200"), Ascii("SEK"))
         == (Ok(Rates(Dec(200, 0), Ascii("SEK"), map[Ascii("SEK") := Dec(20000, -2)])), entries)
  {
    UnitRateRoundsAmount(Ascii("SEK"), Dec(200, 0));
  }

  /** The cache-hit case of the source's tests: a cached table with no rates gives an empty conversion. */
  lemma EmptyCachedTableScenario(entries: map<Key, Bytes>, newFromString: ParseDecimal, unmarshal: Unmarshal,
                                 provider: Provider, today: CalendarDate)
    requires newFromString(Ascii("200")) == Some(Dec(200, 0))
    requires CacheKey(today, Ascii("SEK")) in entries
    requires unmarshal(entries[CacheKey(today, Ascii("SEK"))]) == Some(FixerRates(Ascii("SEK"), [], map[]))
    ensures Respond(entries, newFromString, unmarshal, provider, today, Ascii("200"), Ascii("SEK"))
         == (Ok(Rates(Dec(200, 0), Ascii("SEK"), map[])), entries)
  {
  }

  /**
    A miss for "EUR", the provider answering {USD: 1.1}, amount "10": the
    conversion is {USD: 11.00}, the raw body is stored under the day's key,
    and a second call that day is answered from the store.
  */
  lemma MissThenHitScenario(newFromString: ParseDecimal, unmarshal: Unmarshal, provider: Provider,
                            later: Provider, today: CalendarDate, body: Bytes)
    requires newFromString(Ascii("10")) == Some(Dec(10, 0))
    requires provider(RequestURL(Ascii("EUR"))) == Body(body)
    requires unmarshal(body) == Some(FixerRates(Ascii("EUR"), [], map[Ascii("USD") := Dec(11, -1)]))
    ensures var (resp, after) := Respond(map[], newFromString, unmarshal, provider, today, Ascii("10"), Ascii("EUR"));
      && resp == Ok(Rates(Dec(10, 0), Ascii("EUR"), map[Ascii("USD") := Dec(1100, -2)]))
      && after == map[CacheKey(today, Ascii("EUR")) := body]
      && Respond(after, newFromString, unmarshal, later, today, Ascii("10"), Ascii("EUR")) == (resp, after)
  {
    assert Round(Mul(Dec(11, -1), Dec(10, 0)), 2) == Dec(1100, -2);
    SecondCallHitsCache(map[], newFromString, unmarshal, provider, later, today, Ascii("10"), Ascii("EUR"));
  }
}
