# xrate conversion service — a Dafny model

xrate answers "convert amount X from currency C" with a table of converted amounts for
every currency the rate provider (fixer.io) knows. A request is checked first: the
currency must not be empty, then the amount must parse as an exact decimal. The day's
table is then looked up in a key-value store under a key made of today's date
(`YYYY-MM-DD`) followed by the currency as given. If the lookup fails for any reason, the
table is fetched from fixer.io, and the raw response body is stored under that key once it
has parsed. Every rate in the table is multiplied by the amount and rounded to two decimal
places.

The project models this core in Dafny:

- `decimal.dfy` (module `Decimal`): exact decimals `coef * 10^exp`. It gives exact
  multiplication and rounding to N places, halves away from zero. It proves that the
  product is exact in any unit, that the rounded value is the nearest multiple of
  10^-N, that this nearest multiple is unique, and that rounding depends only on the number
  a decimal denotes.
- `numerals.dfy`, `cachekey.dfy` (modules `Numerals`, `CacheKeys`): the date layout
  `2006-01-02` and `cacheKey`. It proves that the key is the 10-byte date followed by the
  currency bytes, and that distinct (date, currency) pairs give distinct keys.
- `tables.dfy` (module `Tables`): `FixerRates`, `Rates` and `convToRates`. The latter is a
  loop that fills a fresh map and is proved against the map-level specification
  `Converted`.
- `database.dfy` (module `Database`): the `Database` interface as a `Store` class over a
  map from key to stored bytes. `Get` decodes the stored bytes and fails with
  `ErrNotFound` on a missing key. `Set` replaces one entry.
- `xrate.dfy` (module `Xrate`): the `Service` class. Its methods `FetchRates` and `Rates`
  change the store through `modifies db`. Each is proved equal to a value-level function
  (`FetchOutcome`, `Respond`) that returns the response and the new store. `RatesChecked`
  is the corrected `Rates` (see Findings).
- `properties.dfy` (module `XrateProperties`): lemmas about `Respond`.
- `wrappers.dfy`, `bytes.dfy`: `Option`/`Result`, and Go strings and byte slices as
  `seq<byte>`.

Time, the network and two library functions become parameters:
- The date is an argument of `Rates`.
- The provider is an oracle from request URL to `Body(bytes)`, `RequestFailed` or
  `ReadFailed`.
- `decimal.NewFromString` and `json.Unmarshal` are arrow-typed values the service is
  built with.

"The provider is not called" is stated as "the result is the same for every provider".

Two points where the code does not do what its surroundings expect. The model follows the
code in both:
- The HTTP handler in main.go:57-65 answers every error other than the two validation
  errors with "Error fetching exchange rates", so it expects `Rates` to pass a fetch
  failure on. `Rates` never does (xrate/xrate.go:116-121). It drops the error from
  `fetchRates` and crashes, so the only errors `Rates` returns are `ErrEmptyCurr` and
  `ErrParseAmount` (`OnlyValidationErrors`).
- `fetchRates` (xrate/xrate.go:136-149) never checks the HTTP status. It reads and parses
  the body whatever the status. The oracle therefore hands back a body for any status,
  and only the parse decides.

## Model

| member | source | states |
|---|---|---|
| `Decimal.Mul` | xrate/xrate.go:92 | the product's exponent is the sum of the factors' exponents |
| `Decimal.MulExact` | xrate/xrate.go:36-42 | multiplication is exact: counted in any units at or below the factors' exponents, the product's count is the product of the counts |
| `Decimal.Round` | xrate/xrate.go:84-92 | rounding to `places` yields exponent -places; an input already at that exponent is returned unchanged; a shorter input keeps its value exactly; a longer one goes to the nearest multiple, halves away from zero |
| `Decimal.NearestHalfAwayUnique` | xrate/xrate.go:92 | at most one multiple is nearest under the half-away-from-zero tie rule |
| `Decimal.RoundIsNearest` | xrate/xrate.go:92 | any decimal at exponent -places that is the nearest, ties away from zero, is `Round`'s result, so the contract determines the function |
| `Decimal.RoundSameValue` | xrate/xrate.go:92 | two decimals that denote the same number (for example 1 and 1.0) round to the same result |
| `Numerals.NumberOfDigits` | xrate/xrate.go:129 | a number below 10^width is recovered from its zero-padded digits |
| `CacheKeys.FormatDate` | xrate/xrate.go:129 | the date text is 10 bytes: 4 year digits, '-', 2 month digits, '-', 2 day digits |
| `CacheKeys.FormatDateInjective` | xrate/xrate.go:129 | different dates give different date texts |
| `CacheKeys.CacheKey` | xrate/xrate.go:127-132 | the key is the 10-byte date text followed by the currency bytes, unchanged |
| `CacheKeys.CacheKeyInjective` | xrate/xrate.go:127-132 | equal keys mean equal dates and equal currencies, so keys rotate daily and differ by currency, case included |
| `CacheKeys.CacheKeyExamples` | xrate/xrate.go:124-132 | 2024-05-01/USD differs from 2024-05-02/USD and from 2024-05-01/EUR |
| `CacheKeys.CacheKeyLayout` | xrate/xrate.go:128-131 | the key for 2024-05-01 and USD is the text `2024-05-01USD` |
| `Tables.ConvertOne` | xrate/xrate.go:84-92 | every converted value has exactly two decimal places |
| `Tables.Converted` | xrate/xrate.go:90-94 | the converted map has exactly the rate table's currencies, each mapped to round(rate × amount, 2) |
| `Tables.ConvToRates` | xrate/xrate.go:88-95 | the amount and currency are echoed unchanged; the loop yields exactly the rate table's keys, each mapped to round(rate × amount, 2); an empty table gives an empty map |
| `Database.Lookup` | xrate/leveldb.go:19-35 | a missing key gives ErrNotFound; success happens exactly when the key is present and its bytes decode, and the decoded table is returned |
| `Database.Store.Get` | xrate/leveldb.go:19-35 | Get answers as Lookup does on the current entries and changes nothing |
| `Database.Store.Set` | xrate/leveldb.go:37-39 | Set replaces the one entry under the key with the given bytes, verbatim |
| `Database.Store.constructor` | xrate/leveldb.go:10-13 | a store over the given entries and decoder |
| `Xrate.RequestURL` | xrate/xrate.go:136 | the request URL is the fixed fixer.io prefix followed by the currency |
| `Xrate.FetchOutcome` | xrate/xrate.go:135-152 | fetchRates succeeds exactly when the provider returns a body that parses; then the raw body is stored under the key and nothing else changes; on any failure the store is unchanged |
| `Xrate.Resolve` | xrate/xrate.go:115-119 | when Get succeeds, its table with the store unchanged; when Get fails, exactly fetchRates' outcome; the store changes only when the key is missing or its entry does not decode |
| `Xrate.Respond` | xrate/xrate.go:105-122 | Rates as written, on values: ErrEmptyCurr for an empty currency and ErrParseAmount for an unparsable amount, with the store unchanged; no other error; a crash exactly when the checks pass and the cache-then-fetch step fails; on success the currency echoed, the parsed amount and the resolved table converted; the new store is the cache-then-fetch step's |
| `Xrate.RespondChecked` | xrate/xrate.go:116-121 | the corrected Rates, on values: never a crash, the same validation errors, and an upstream error only when the checks passed and the cache-then-fetch step failed with that very error |
| `Xrate.Service.constructor` | xrate/xrate.go:31-34 | NewService holds the given store and uses the same JSON decoding as it |
| `Xrate.Service.FetchRates` | xrate/xrate.go:135-152 | the method's result and new store are FetchOutcome's: unchanged on failure, the raw body set under the key on success |
| `Xrate.Service.Rates` | xrate/xrate.go:105-122 | the method's result and new store are Respond's. An empty currency gives ErrEmptyCurr and a non-empty currency with an unparsable amount, the empty amount among them, gives ErrParseAmount, both with the store unchanged. No other error is returned. On success the currency is echoed and the amount is the parsed value |
| `Xrate.Service.RatesChecked` | xrate/xrate.go:116-121 | the corrected Rates: the same checks and resolution, but it never crashes |
| `XrateProperties.EmptyCurrencyFirst` | xrate/xrate.go:106-108 | an empty currency gives ErrEmptyCurr whatever the amount, parser or provider, before any parsing, and leaves the store as it was |
| `XrateProperties.UnparsableAmountRejected` | xrate/xrate.go:109-112 | with a non-empty currency, an amount the parser rejects gives ErrParseAmount, and the store is unchanged |
| `XrateProperties.EmptyAmountRejected` | xrate/xrate_test.go:32 | with a non-empty currency, the empty amount gives ErrParseAmount and the store is unchanged |
| `XrateProperties.MissThenFetchConverts` | xrate/xrate.go:115-121 | when Get fails and the provider's body parses, the response is that fetched table converted for the parsed amount, and the raw body is stored under the key |
| `XrateProperties.CacheHitSkipsProvider` | xrate/xrate.go:114-121 | when Get succeeds, the response is the cached table converted. It is the same for every provider, and the store is not written |
| `XrateProperties.SuccessShape` | xrate/xrate.go:89-94 | a successful response echoes the currency verbatim and the parsed (unrounded) amount, and converts a table's every rate |
| `XrateProperties.OnlyValidationErrors` | xrate/xrate.go:98-122 | the only errors Rates returns are ErrEmptyCurr and ErrParseAmount |
| `XrateProperties.MissThenFailedFetchPanics` | xrate/xrate.go:116-121 | a failed Get followed by a failed fetch crashes (nil table dereferenced), with the store unchanged |
| `XrateProperties.PanicExample` | xrate/xrate.go:116-121 | an empty store, an unreachable provider, amount "200" and currency "SEK" crash |
| `XrateProperties.StoreWriteOnlyAfterParse` | xrate/xrate.go:115-118 | the store is either unchanged or gains the provider's raw body under the same key Get used, and only after a failed Get, a valid input and a body that parsed |
| `XrateProperties.SecondCallHitsCache` | xrate/xrate.go:115-118 | after a successful call, a later call on the same date with the same currency finds the entry. With the same amount it returns the same response, for any provider, and leaves the store unchanged |
| `XrateProperties.CheckedAgreesUnlessPanic` | xrate/xrate.go:116-121 | the corrected Rates never crashes, leaves the same store, equals Rates whenever Rates does not crash, and returns exactly fetchRates' error where Rates crashes |
| `XrateProperties.UnitRateRoundsAmount` | xrate/xrate.go:90-94 | a table whose only rate is 1, written 1 or 1.0, converts the amount to round(amount, 2) |
| `XrateProperties.CachedSekScenario` | xrate/xrate.go:105-122 | amount 200 in SEK with the cached table {SEK: 1} gives {SEK: 200.00} with amount 200 |
| `XrateProperties.EmptyCachedTableScenario` | xrate/xrate_test.go:14-17 | the cache-hit test: a cached SEK table with no rates gives amount 200, currency SEK and an empty conversion |
| `XrateProperties.MissThenHitScenario` | xrate/xrate.go:115-121 | a miss for EUR with the provider answering {USD: 1.1} and amount 10 gives {USD: 11.00}. The raw body is stored under the day's key, and a second call that day is answered from the store |

## Left out

- The HTTP request to fixer.io, reading the body and closing it (xrate/xrate.go:136-145): an oracle from URL to body or failure stands in for them.
- JSON decoding of the provider payload and of stored entries: an arrow-typed parameter `Unmarshal`. The store and the service share it.
- `decimal.NewFromString`: an arrow-typed parameter `ParseDecimal`, known only to reject the empty text. The lemmas that need a particular amount (`"200"`, `"10"`) state what the parser returns for it in their requires.
- `Dec.MarshalJSON`, `RatesMap.MarshalXML` and decimal-to-text formatting (`String`): output formatting, not conversion logic.
- `time.Now()` and the local time zone: the date is a parameter. Years outside 0..9999 are not modelled. Go's "2006" layout gives a negative year a minus sign and a year above 9999 more than four digits, which never happens for a current date. Day numbers are checked only to lie in 1..31.
- Decimal.Mul: does not model the 32-bit exponent of the decimal library, which panics when the sum of the exponents leaves that range; `Dec.exp` is an unbounded integer.
- `Round` takes `places` as a natural number. The source only ever rounds to 2; negative places, which the library also accepts, are not modelled.
- The LevelDB engine and its I/O errors other than a missing key (xrate/leveldb.go): the store is a map. A stored entry that does not decode is the one other lookup failure modelled. Either failure leads to a fetch, as in the source.
- Database.Store.Set: never fails in the model. The source discards Set's error, so a failed write changes nothing but the later cache hit.
- Concurrency: two simultaneous misses for the same key both fetch and both write. The model is one call at a time.
- `main.go`: HTTP routing, the method check, mapping errors to status codes, flag parsing, opening the database and the global service handle.
- "The provider is not called" is modelled as "the result does not depend on the provider". The model keeps no count of calls.

## Findings

| source | as written | input that shows it | evidently intended | confidence | as-written member | corrected member |
|---|---|---|---|---|---|---|
| xrate/xrate.go:116-121 | after a failed `Get`, the error from `fetchRates` is assigned and never checked; `fr.convToRates` then ranges over the rates of a nil table and panics, and line 121 returns a nil error in every case | empty store, provider request fails, amount "200", currency "SEK" | return the error from `fetchRates` when it fails | not executed | `XrateProperties.PanicExample` | `Xrate.Service.RatesChecked` |
