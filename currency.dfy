/**
 * The static pricing configuration of the pricing section: the currency table,
 * the country-to-currency table, the lookup with its "USD" fallback and the
 * three pricing cards built from a currency's price triple.
 */
module Currency {
  import opened Wrappers

  /** Exactly three pre-formatted prices: Starter, Growth, Premium. */
  type PriceTriple = s: seq<string> | |s| == 3 witness ["", "", ""]

  datatype CurrencyConfig = CurrencyConfig(symbol: string, name: string, flag: string, prices: PriceTriple)

  /** The universal fallback currency. */
  const DefaultCurrency: string := "USD"

  /** The currency table, keyed by currency code. */
  const Currencies: map<string, CurrencyConfig> := map[
    "USD" := CurrencyConfig("$", "US Dollar", "🇺🇸", ["$299", "$599", "$999"]),
    "EUR" := CurrencyConfig("€", "Euro", "🇪🇺", ["€279", "$549", "€919"]),
    "GBP" := CurrencyConfig("£", "British Pound", "🇬🇧", ["£249", "£499", "£849"]),
    "AUD" := CurrencyConfig("A$", "Australian Dollar", "🇦🇺", ["A$449", "A$899", "A$1,499"]),
    "CAD" := CurrencyConfig("C$", "Canadian Dollar", "🇨🇦", ["C$399", "C$799", "C$1,349"]),
    "INR" := CurrencyConfig("₹", "Indian Rupee", "🇮🇳", ["₹9,999", "₹19,999", "₹34,999"]),
    "PKR" := CurrencyConfig("₨", "Pakistani Rupee", "🇵🇰", ["₨84,999", "₨1,69,999", "₨2,79,999"]),
    "BDT" := CurrencyConfig("৳", "Bangladeshi Taka", "🇧🇩", ["৳34,999", "৳69,999", "৳1,14,999"]),
    "AED" := CurrencyConfig("د.إ", "UAE Dirham", "🇦🇪", ["د.إ1,099", "د.إ2,199", "د.إ3,669"]),
    "SGD" := CurrencyConfig("S$", "Singapore Dollar", "🇸🇬", ["S$399", "S$799", "S$1,349"]),
    "MYR" := CurrencyConfig("RM", "Malaysian Ringgit", "🇲🇾", ["RM1,399", "RM2,799", "RM4,699"]),
    "PHP" := CurrencyConfig("₱", "Philippine Peso", "🇵🇭", ["₱16,999", "₱33,999", "₱56,999"]),
    "NGN" := CurrencyConfig("₦", "Nigerian Naira", "🇳🇬", ["₦4,49,999", "₦8,99,999", "₦14,99,999"]),
    "BRL" := CurrencyConfig("R$", "Brazilian Real", "🇧🇷", ["R$1,499", "R$2,999", "R$4,999"]),
    "ZAR" := CurrencyConfig("R", "South African Rand", "🇿🇦", ["R5,499", "R10,999", "R18,499"])
  ]

  /**
   * The keys of the currency table in declaration order: the order in which
   * the currency dropdown lists them.
   */
  const CurrencyOrder: seq<string> :=
    ["USD", "EUR", "GBP", "AUD", "CAD", "INR", "PKR", "BDT", "AED", "SGD", "MYR", "PHP", "NGN", "BRL", "ZAR"]

  /**
   * The country table: ISO 3166-1 alpha-2 country code to currency code.
   * It is one object literal in the source; here it is the union of two map
   * displays with disjoint keys (its first four source lines and its last
   * five), because the verifier unfolds a single display of 45 entries only
   * part of the way.
   */
  const CountryToCurrency: map<string, string> := CountryRowsFirst + CountryRowsLast

  const CountryRowsFirst: map<string, string> := map[
    "US" := "USD", "CA" := "CAD", "AU" := "AUD", "NZ" := "USD",
    "GB" := "GBP", "IE" := "EUR", "DE" := "EUR", "FR" := "EUR", "IT" := "EUR", "ES" := "EUR",
    "NL" := "EUR", "BE" := "EUR", "AT" := "EUR", "PT" := "EUR", "FI" := "EUR", "GR" := "EUR",
    "IN" := "INR", "PK" := "PKR", "BD" := "BDT", "LK" := "INR"
  ]

  const CountryRowsLast: map<string, string> := map[
    "AE" := "AED", "SA" := "AED", "QA" := "AED", "KW" := "AED", "BH" := "AED", "OM" := "AED",
    "SG" := "SGD", "MY" := "MYR", "PH" := "PHP", "ID" := "USD", "TH" := "USD", "VN" := "USD",
    "NG" := "NGN", "GH" := "USD", "KE" := "USD", "ZA" := "ZAR", "EG" := "USD",
    "BR" := "BRL", "MX" := "USD", "AR" := "USD", "CO" := "USD", "CL" := "USD",
    "CN" := "USD", "JP" := "USD", "KR" := "USD"
  ]

  /** Referential integrity of the two tables, and the fallback is a key. */
  lemma TablesConsistent()
    ensures DefaultCurrency in Currencies
    ensures forall c | c in CountryToCurrency :: CountryToCurrency[c] in Currencies
  {
  }

  /** Every price of every currency is a non-empty string. */
  lemma PricesNonEmpty()
    ensures forall code, i | code in Currencies && 0 <= i < 3 :: Currencies[code].prices[i] != ""
  {
  }

  /**
   * Every price starts with its currency's symbol, with exactly one
   * exception: the Growth price of the Euro row.
   */
  lemma PricesCarryTheirSymbol()
    ensures forall code, i | code in Currencies && 0 <= i < 3 && (code, i) != ("EUR", 1) ::
      StartsWith(Currencies[code].prices[i], Currencies[code].symbol)
  {
  }

  /** The Euro row's Growth price is written with a dollar sign, not a euro sign. */
  lemma EuroGrowthPriceUsesDollar()
    ensures Currencies["EUR"].prices[1] == "$549"
    ensures !StartsWith(Currencies["EUR"].prices[1], Currencies["EUR"].symbol)
  {
    var euro := Currencies["EUR"];
    assert euro.symbol == "€" && euro.prices[1] == "$549";
    assert euro.prices[1][0] != euro.symbol[0];
  }

  predicate StartsWith(s: string, prefix: string) {
    |prefix| <= |s| && s[..|prefix|] == prefix
  }

  /** The dropdown order lists every currency of the table exactly once. */
  lemma CurrencyOrderIsTheTable()
    ensures forall code :: code in CurrencyOrder <==> code in Currencies
    ensures forall i, j | 0 <= i < j < |CurrencyOrder| :: CurrencyOrder[i] != CurrencyOrder[j]
  {
  }

  /**
   * `COUNTRY_TO_CURRENCY[country] ?? 'USD'`: the mapped currency of a known
   * country, and the fallback for an unknown or absent country code.
   */
  function ResolveCurrency(country: Option<string>): (code: string)
    ensures country.Some? && country.value in CountryToCurrency ==> code == CountryToCurrency[country.value]
    ensures (country.None? || country.value !in CountryToCurrency) ==> code == DefaultCurrency
  {
    match country
    case Some(c) => if c in CountryToCurrency then CountryToCurrency[c] else DefaultCurrency
    case None => DefaultCurrency
  }

  /** Resolution always yields a key of the currency table, whatever the country code. */
  lemma ResolvedCurrencyIsKnown(country: Option<string>)
    ensures ResolveCurrency(country) in Currencies
  {
    TablesConsistent();
  }

  /** A German visitor resolves to the Euro. */
  lemma GermanyResolvesToEuro()
    ensures ResolveCurrency(Some("DE")) == "EUR"
  {
    assert "DE" !in CountryRowsLast;
    assert CountryRowsFirst["DE"] == "EUR";
    assert CountryToCurrency["DE"] == "EUR";
  }

  /** The Euro row's starter price and flag. */
  lemma EuroStarterAndFlag()
    ensures "EUR" in Currencies
    ensures Currencies["EUR"].prices[0] == "€279" && Currencies["EUR"].flag == "🇪🇺"
  {
  }

  /** A country code outside the table, "XX", resolves to the fallback. */
  lemma UnknownCountryResolvesToDefault()
    ensures ResolveCurrency(Some("XX")) == DefaultCurrency
  {
    UnknownCountryIsUnmapped();
  }

  lemma UnknownCountryIsUnmapped()
    ensures "XX" !in CountryToCurrency
  {
    assert "XX" !in CountryRowsFirst && "XX" !in CountryRowsLast;
  }
}
