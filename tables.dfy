/**
  The rate tables of xrate/xrate.go: the provider's table (FixerRates), the
  table returned to the user (Rates), and convToRates, which multiplies every
  rate by the amount and rounds to two places.
*/
module Tables {
  import opened GoBytes
  import opened Decimal

  /** The provider's table: a base currency, the provider's date text (never parsed), and a rate per currency. */
  datatype FixerRates = FixerRates(base: Bytes, date: Bytes, rates: map<Bytes, Dec>)

  /** The table returned to the user: the amount as parsed, the currency as given, and a converted value per currency. */
  datatype Rates = Rates(amount: Dec, currency: Bytes, converted: map<Bytes, Dec>)

  const DefaultRoundPlaces: nat := 2

  /** One converted value: rate times amount, rounded to two places. */
  function ConvertOne(rate: Dec, amount: Dec): (v: Dec)
    ensures v.exp == -(DefaultRoundPlaces as int)
  {
    Round(Mul(rate, amount), DefaultRoundPlaces)
  }

  /** The converted map as a whole: the same currencies, each rate converted. */
  function Converted(rates: map<Bytes, Dec>, amount: Dec): (m: map<Bytes, Dec>)
    ensures m.Keys == rates.Keys
    ensures forall k :: k in m ==> m[k] == ConvertOne(rates[k], amount)
  {
    map k | k in rates :: ConvertOne(rates[k], amount)
  }

  /** convToRates: a fresh map filled one currency at a time. */
  method ConvToRates(fr: FixerRates, amount: Dec, currency: Bytes) returns (r: Rates)
    ensures r.amount == amount && r.currency == currency
    ensures r.converted.Keys == fr.rates.Keys
    ensures forall k :: k in r.converted ==> r.converted[k] == Round(Mul(fr.rates[k], amount), DefaultRoundPlaces)
    ensures r == Rates(amount, currency, Converted(fr.rates, amount))
  {
    var converted: map<Bytes, Dec> := map[];
    var pending := fr.rates.Keys;
    while pending != {}
      invariant pending <= fr.rates.Keys
      invariant converted.Keys == fr.rates.Keys - pending
      invariant forall k :: k in converted ==> converted[k] == ConvertOne(fr.rates[k], amount)
      decreases pending
    {
      var k :| k in pending;
      converted := converted[k := ConvertOne(fr.rates[k], amount)];
      pending := pending - {k};
    }
    assert converted == Converted(fr.rates, amount);
    r := Rates(amount, currency, converted);
  }
}
