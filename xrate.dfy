/**
  The conversion service of xrate/xrate.go. `Rates` checks the currency,
  then parses the amount, then looks the day's table up in the store and,
  on any lookup error, fetches it from fixer.io, storing the raw body once it
  has parsed; the table found is converted for the amount.

  The network and the clock are parameters: the provider is a function from
  request URL to what the GET and the body read yield, and the date is
  passed in. The decimal parser and the JSON decoder are library functions
  the model does not define; the service is given them.

  The source ignores the error that fetchRates returns and goes on to
  convert a nil table, which crashes (a nil pointer dereference). Rates
  models that as the outcome Panic; RatesChecked is the same method with the
  evidently intended error check.
*/
module Xrate {
  import opened Wrappers
  import opened GoBytes
  import opened Decimal
  import opened CacheKeys
  import opened Tables
  import opened Database

  /**
    decimal.NewFromString: a partial parser this model does not define,
    except that it rejects the empty text.
  */
  type ParseDecimal = f: Bytes -> Option<Dec> | f([]) == None witness (_: Bytes) => None

  const FixerURL: Bytes := Ascii("http://api.fixer.io/latest?base=")

  /** What the HTTP GET of a URL followed by reading its whole body yields. */
  datatype Fetched = Body(body: Bytes) | RequestFailed | ReadFailed

  /** The remote rate provider, as an oracle from request URL to outcome. */
  type Provider = Bytes -> Fetched

  /** The three ways fetchRates fails: the request, the body read, or the JSON parse. */
  datatype FetchError = CantRequest | CantRead | CantParse

  /**
    The errors Rates can return. Upstream exists only for RatesChecked,
    the corrected variant, which returns fetchRates' own error.
  */
  datatype Error = ErrParseAmount | ErrEmptyCurr | Upstream(cause: FetchError)

  /** The outcome of one call: a table, an error, or a crash of the process' request handler. */
  datatype Response = Ok(rates: Rates) | Err(error: Error) | Panic

  /** The request URL for a base currency. */
  function RequestURL(currency: Bytes): (url: Bytes)
    ensures |url| == |FixerURL| + |currency|
    ensures url[..|FixerURL|] == FixerURL && url[|FixerURL|..] == currency
  {
    FixerURL + currency
  }

  /**
    fetchRates: the table fetched for `currency` and the store afterwards.
    The raw body is stored under `key` only once it has parsed.
  */
  function FetchOutcome(entries: map<Key, Bytes>, unmarshal: Unmarshal, provider: Provider, currency: Bytes, key: Key)
    : (out: (Result<FixerRates, FetchError>, map<Key, Bytes>))
    ensures out.0.Success? <==> provider(RequestURL(currency)).Body? && unmarshal(provider(RequestURL(currency)).body).Some?
    ensures out.0.Success? ==> unmarshal(provider(RequestURL(currency)).body) == Some(out.0.value)
    ensures out.0.Success? ==> out.1 == entries[key := provider(RequestURL(currency)).body]
    ensures out.0.Failure? ==> out.1 == entries
  {
    match provider(RequestURL(currency))
    case RequestFailed => (Failure(CantRequest), entries)
    case ReadFailed => (Failure(CantRead), entries)
    case Body(body) =>
      match unmarshal(body)
      case None => (Failure(CantParse), entries)
      case Some(fr) => (Success(fr), entries[key := body])
  }

  /** The cache-then-fetch step of Rates: the store's table if Get succeeds, else fetchRates' outcome. */
  function Resolve(entries: map<Key, Bytes>, unmarshal: Unmarshal, provider: Provider, currency: Bytes, key: Key)
    : (out: (Result<FixerRates, FetchError>, map<Key, Bytes>))
    ensures Lookup(entries, unmarshal, key).Success? ==> out == (Success(Lookup(entries, unmarshal, key).value), entries)
    ensures Lookup(entries, unmarshal, key).Failure? ==> out == FetchOutcome(entries, unmarshal, provider, currency, key)
    ensures out.1 == entries || (key !in entries || unmarshal(entries[key]).None?)
  {
    match Lookup(entries, unmarshal, key)
    case Success(fr) => (Success(fr), entries)
    case Failure(_) => FetchOutcome(entries, unmarshal, provider, currency, key)
  }

  /** Rates as written: the response and the store afterwards. */
  function Respond(entries: map<Key, Bytes>, newFromString: ParseDecimal, unmarshal: Unmarshal,
                   provider: Provider, today: CalendarDate, amount: Bytes, currency: Bytes)
    : (out: (Response, map<Key, Bytes>))
    ensures currency == [] ==> out == (Err(ErrEmptyCurr), entries)
    ensures currency != [] && newFromString(amount).None? ==> out == (Err(ErrParseAmount), entries)
    ensures out.0.Err? ==> out.0.error == ErrEmptyCurr || out.0.error == ErrParseAmount
    ensures out.0 == Panic <==>
      currency != [] && newFromString(amount).Some? &&
      Resolve(entries, unmarshal, provider, currency, CacheKey(today, currency)).0.Failure?
    ensures out.0.Ok? ==>
      && out.0.rates.currency == currency
      && newFromString(amount) == Some(out.0.rates.amount)
      && Resolve(entries, unmarshal, provider, currency, CacheKey(today, currency)).0.Success?
      && out.0.rates.converted
         == Converted(Resolve(entries, unmarshal, provider, currency, CacheKey(today, currency)).0.value.rates, out.0.rates.amount)
    ensures currency != [] && newFromString(amount).Some? ==>
      out.1 == Resolve(entries, unmarshal, provider, currency, CacheKey(today, currency)).1
  {
    if currency == [] then (Err(ErrEmptyCurr), entries)
    else match newFromString(amount)
      case None => (Err(ErrParseAmount), entries)
      case Some(am) =>
        var (fr, after) := Resolve(entries, unmarshal, provider, currency, CacheKey(today, currency));
        match fr
        case Success(table) => (Ok(Rates(am, currency, Converted(table.rates, am))), after)
        case Failure(_) => (Panic, after)
  }

  /** Rates with the error of fetchRates returned instead of dropped. */
  function RespondChecked(entries: map<Key, Bytes>, newFromString: ParseDecimal, unmarshal: Unmarshal,
                          provider: Provider, today: CalendarDate, amount: Bytes, currency: Bytes)
    : (out: (Response, map<Key, Bytes>))
    ensures out.0 != Panic
    ensures currency == [] ==> out == (Err(ErrEmptyCurr), entries)
    ensures currency != [] && newFromString(amount).None? ==> out == (Err(ErrParseAmount), entries)
    ensures out.0.Err? && out.0.error.Upstream? ==>
      && currency != [] && newFromString(amount).Some?
      && Resolve(entries, unmarshal, provider, currency, CacheKey(today, currency)).0
         == Failure(out.0.error.cause)
  {
    if currency == [] then (Err(ErrEmptyCurr), entries)
    else match newFromString(amount)
      case None => (Err(ErrParseAmount), entries)
      case Some(am) =>
        var (fr, after) := Resolve(entries, unmarshal, provider, currency, CacheKey(today, currency));
        match fr
        case Success(table) => (Ok(Rates(am, currency, Converted(table.rates, am))), after)
        case Failure(e) => (Err(Upstream(e)), after)
  }

  class Service {
    const db: Store
    const newFromString: ParseDecimal
    const unmarshal: Unmarshal

    /** The store decodes with the same JSON decoding as the service. */
    ghost predicate Valid()
    {
      db.unmarshal == unmarshal
    }

    /** NewService, given the library functions the source calls directly. */
    constructor (db: Store, newFromString: ParseDecimal, unmarshal: Unmarshal)
      requires db.unmarshal == unmarshal
      ensures Valid()
      ensures this.db == db && this.newFromString == newFromString && this.unmarshal == unmarshal
    {
      this.db := db;
      this.newFromString := newFromString;
      this.unmarshal := unmarshal;
    }

    /** fetchRates: GET the table, read and parse the body, then Set the raw body under key. */
    method FetchRates(currency: Bytes, key: Key, provider: Provider) returns (r: Result<FixerRates, FetchError>)
      modifies db
      ensures (r, db.entries) == FetchOutcome(old(db.entries), unmarshal, provider, currency, key)
      ensures r.Failure? ==> db.entries == old(db.entries)
      ensures r.Success? ==> db.entries == old(db.entries)[key := provider(RequestURL(currency)).body]
    {
      var resp := provider(RequestURL(currency));
      if resp.RequestFailed? {
        return Failure(CantRequest);
      }
      if resp.ReadFailed? {
        return Failure(CantRead);
      }
      var fr := unmarshal(resp.body);
      if fr.None? {
        return Failure(CantParse);
      }
      db.Set(key, resp.body);  // its error is ignored
      return Success(fr.value);
    }

    /** Rates as written. */
    method Rates(amount: Bytes, currency: Bytes, today: CalendarDate, provider: Provider) returns (resp: Response)
      requires Valid()
      modifies db
      ensures (resp, db.entries) == Respond(old(db.entries), newFromString, unmarshal, provider, today, amount, currency)
      ensures currency == [] ==> resp == Err(ErrEmptyCurr) && db.entries == old(db.entries)
      ensures currency != [] && newFromString(amount).None? ==> resp == Err(ErrParseAmount) && db.entries == old(db.entries)
      ensures currency != [] && amount == [] ==> resp == Err(ErrParseAmount) && db.entries == old(db.entries)
      ensures resp.Err? ==> resp.error == ErrEmptyCurr || resp.error == ErrParseAmount
      ensures resp.Ok? ==> resp.rates.currency == currency && newFromString(amount) == Some(resp.rates.amount)
    {
      if currency == [] {
        return Err(ErrEmptyCurr);
      }
      var am := newFromString(amount);
      if am.None? {
        return Err(ErrParseAmount);
      }

      var key := CacheKey(today, currency);
      var got := db.Get(key);
      var fr: Result<FixerRates, FetchError>;
      if got.Success? {
        fr := Success(got.value);
      } else {
        fr := FetchRates(currency, key, provider);  // the error is dropped here
      }
      if fr.Failure? {
        return Panic;  // convToRates ranges over the rates of a nil table
      }
      var r := ConvToRates(fr.value, am.value, currency);
      return Ok(r);
    }

    /** Rates with the error check the source evidently intended. */
    method RatesChecked(amount: Bytes, currency: Bytes, today: CalendarDate, provider: Provider) returns (resp: Response)
      requires Valid()
      modifies db
      ensures (resp, db.entries) == RespondChecked(old(db.entries), newFromString, unmarshal, provider, today, amount, currency)
      ensures resp != Panic
    {
      if currency == [] {
        return Err(ErrEmptyCurr);
      }
      var am := newFromString(amount);
      if am.None? {
        return Err(ErrParseAmount);
      }

      var key := CacheKey(today, currency);
      var got := db.Get(key);
      var fr: Result<FixerRates, FetchError>;
      if got.Success? {
        fr := Success(got.value);
      } else {
        fr := FetchRates(currency, key, provider);
      }
      if fr.Failure? {
        return Err(Upstream(fr.error));
      }
      var r := ConvToRates(fr.value, am.value, currency);
      return Ok(r);
    }
  }
}
