/**
 * The pricing section: the three pricing cards projected from the selected
 * currency, the currency menu, and the section's session state together with
 * the three events that change it (the geo-detection outcome, the dropdown
 * toggle and a manual currency selection).
 */
module Pricing {
  import opened Wrappers
  import opened Currency

  /** A pricing card: its tier name, its price, whether it is the featured card, its call to action. */
  datatype Plan = Plan(name: string, price: string, featured: bool, cta: string)

  /** What a pricing card shows in place of its price while the geo lookup is outstanding. */
  const LoadingPrice: string := "—"

  /** The three pricing cards, in order Starter, Growth, Premium, for a currency. */
  function Plans(cfg: CurrencyConfig): (plans: seq<Plan>)
    ensures |plans| == 3
    ensures forall i | 0 <= i < 3 :: plans[i].price == cfg.prices[i]
    ensures forall i | 0 <= i < 3 :: plans[i].featured <==> i == 1
    ensures [plans[0].name, plans[1].name, plans[2].name] == ["Starter", "Growth", "Premium"]
  {
    [ Plan("Starter", cfg.prices[0], false, "Get Started"),
      Plan("Growth", cfg.prices[1], true, "Most Popular"),
      Plan("Premium", cfg.prices[2], false, "Go Premium") ]
  }

  /** One entry of the currency dropdown. */
  datatype MenuItem = MenuItem(code: string, flag: string, name: string, active: bool)

  /**
   * The dropdown entries: every currency of the table, in table order, with
   * the selected one marked active.
   */
  function CurrencyMenu(selected: string): (items: seq<MenuItem>)
    ensures |items| == |CurrencyOrder|
    ensures forall i | 0 <= i < |items| ::
      && items[i].code == CurrencyOrder[i]
      && items[i].code in Currencies
      && items[i].flag == Currencies[items[i].code].flag
      && items[i].name == Currencies[items[i].code].name
      && (items[i].active <==> items[i].code == selected)
  {
    CurrencyOrderIsTheTable();
    seq(|CurrencyOrder|, i requires 0 <= i < |CurrencyOrder| =>
      var code := CurrencyOrder[i];
      MenuItem(code, Currencies[code].flag, Currencies[code].name, code == selected))
  }

  /** A menu built for a currency of the table marks exactly one entry active, the selected one. */
  lemma MenuHasOneActiveItem(selected: string)
    requires selected in Currencies
    ensures exists i | 0 <= i < |CurrencyMenu(selected)| :: CurrencyMenu(selected)[i].active
    ensures forall i, j | 0 <= i < j < |CurrencyMenu(selected)| ::
      !(CurrencyMenu(selected)[i].active && CurrencyMenu(selected)[j].active)
  {
    var items := CurrencyMenu(selected);
    CurrencyOrderIsTheTable();
    var k :| 0 <= k < |CurrencyOrder| && CurrencyOrder[k] == selected;
    assert items[k].active;
  }

  /**
   * The session state of the pricing section. `currencyCode` is the active
   * currency, `detectedCountry` the raw country code of the geo lookup (None
   * for JavaScript's `null` and `undefined`), `loading` is set until the geo
   * lookup has settled, `dropdownOpen` tells whether the currency menu shows.
   */
  class PricingSection {
    var currencyCode: string
    var detectedCountry: Option<string>
    var loading: bool
    var dropdownOpen: bool

    /** The active currency is a key of the currency table, so looking it up is defined. */
    ghost predicate Valid()
      reads this
    {
      currencyCode in Currencies
    }

    constructor ()
      ensures Valid()
      ensures currencyCode == DefaultCurrency && detectedCountry == None
      ensures loading && !dropdownOpen
    {
      TablesConsistent();
      currencyCode := DefaultCurrency;
      detectedCountry := None;
      loading := true;
      dropdownOpen := false;
    }

    /**
     * The geo lookup answered with a country code (None when the answer has
     * no `country_code`). The raw code is stored even when the country table
     * does not know it, and the resolved currency replaces the active one
     * whatever it was, a manual choice included. The answer's HTTP status is
     * never checked, so an error answer whose JSON body has no `country_code`
     * arrives here as `None` rather than as a failure.
     */
    method GeoSuccess(country: Option<string>)
      requires Valid()
      modifies this
      ensures Valid()
      ensures detectedCountry == country
      ensures currencyCode == ResolveCurrency(country)
      ensures !loading && dropdownOpen == old(dropdownOpen)
    {
      ResolvedCurrencyIsKnown(country);
      detectedCountry := country;
      currencyCode := ResolveCurrency(country);
      loading := false;
    }

    /** The geo lookup threw: only the loading flag changes. */
    method GeoFailure()
      requires Valid()
      modifies this
      ensures Valid()
      ensures currencyCode == old(currencyCode) && detectedCountry == old(detectedCountry)
      ensures !loading && dropdownOpen == old(dropdownOpen)
    {
      loading := false;
    }

    /** The currency button flips the dropdown and nothing else. */
    method Toggle()
      requires Valid()
      modifies this
      ensures Valid()
      ensures dropdownOpen == !old(dropdownOpen)
      ensures currencyCode == old(currencyCode) && detectedCountry == old(detectedCountry)
      ensures loading == old(loading)
    {
      dropdownOpen := !dropdownOpen;
    }

    /**
     * A click on a dropdown entry. The dropdown lists only the keys of the
     * currency table, so `code` is one of them.
     */
    method Select(code: string)
      requires Valid() && code in Currencies
      modifies this
      ensures Valid()
      ensures currencyCode == code && !dropdownOpen
      ensures detectedCountry == old(detectedCountry) && loading == old(loading)
    {
      currencyCode := code;
      dropdownOpen := false;
    }

    /** The configuration of the active currency. */
    function Config(): (cfg: CurrencyConfig)
      reads this
      requires Valid()
      ensures cfg in Currencies.Values
    {
      Currencies[currencyCode]
    }

    /**
     * The price pricing card `tier` shows: the placeholder while loading,
     * otherwise the active currency's price for that tier.
     */
    function ShownPrice(tier: nat): (shown: string)
      reads this
      requires Valid() && tier < 3
      ensures shown == LoadingPrice <==> loading
      ensures !loading ==> shown == Currencies[currencyCode].prices[tier]
    {
      if loading then LoadingPrice else Plans(Config())[tier].price
    }

    /**
     * The "Auto-detected" line: present once the lookup has settled with a
     * non-empty country code, showing the active currency's flag and that code.
     */
    function AutoDetectedLine(): (line: Option<(string, string)>)
      reads this
      requires Valid()
      ensures line.Some? <==> !loading && detectedCountry.Some? && detectedCountry.value != ""
      ensures line.Some? ==> line.value == (Currencies[currencyCode].flag, detectedCountry.value)
    {
      if !loading && detectedCountry.Some? && detectedCountry.value != "" then
        Some((Config().flag, detectedCountry.value))
      else
        None
    }

    /** The dropdown entries on show: none while it is closed. */
    function Menu(): (items: seq<MenuItem>)
      reads this
      ensures dropdownOpen ==> items == CurrencyMenu(currencyCode)
      ensures !dropdownOpen ==> items == []
    {
      if dropdownOpen then CurrencyMenu(currencyCode) else []
    }
  }

  /** A visitor from Germany: Euro prices, starting at €279, and the detected line shows DE. */
  method DetectedGermany() returns (code: string, starter: string, line: Option<(string, string)>)
    ensures code == "EUR" && starter == "€279"
    ensures line == Some(("🇪🇺", "DE"))
  {
    GermanyResolvesToEuro();
    EuroStarterAndFlag();
    var section := new PricingSection();
    section.GeoSuccess(Some("DE"));
    code, starter, line := section.currencyCode, section.ShownPrice(0), section.AutoDetectedLine();
  }

  /**
   * A country the table does not know: US Dollar prices, and, because the raw
   * code is stored before the lookup, the detected line still shows it.
   */
  method DetectedUnknownCountry() returns (code: string, starter: string, line: Option<(string, string)>)
    ensures code == "USD" && starter == "$299"
    ensures line == Some(("🇺🇸", "XX"))
  {
    UnknownCountryResolvesToDefault();
    var section := new PricingSection();
    section.GeoSuccess(Some("XX"));
    code, starter, line := section.currencyCode, section.ShownPrice(0), section.AutoDetectedLine();
  }

  /** The geo lookup threw: US Dollar prices and no detected line. */
  method DetectionFailed() returns (code: string, starter: string, line: Option<(string, string)>)
    ensures code == "USD" && starter == "$299"
    ensures line == None
  {
    var section := new PricingSection();
    section.GeoFailure();
    code, starter, line := section.currencyCode, section.ShownPrice(0), section.AutoDetectedLine();
  }

  /** Choosing the Indian Rupee from the dropdown after detection shows its three prices. */
  method ChoseIndianRupee(country: Option<string>) returns (prices: seq<string>)
    ensures prices == ["₹9,999", "₹19,999", "₹34,999"]
  {
    var section := new PricingSection();
    section.GeoSuccess(country);
    section.Toggle();
    section.Select("INR");
    prices := [section.ShownPrice(0), section.ShownPrice(1), section.ShownPrice(2)];
  }

  /**
   * A manual choice made before the geo lookup settles does not survive it:
   * the late result for Germany replaces the Indian Rupee with the Euro.
   */
  method LateDetectionOverridesChoice() returns (code: string)
    ensures code == "EUR"
  {
    var section := new PricingSection();
    section.Toggle();
    section.Select("INR");
    GermanyResolvesToEuro();
    section.GeoSuccess(Some("DE"));
    code := section.currencyCode;
  }

  /**
   * An error answer from the geo service is not told apart from a success:
   * without a `country_code` it resets a manual Indian Rupee choice to the
   * US Dollar, whereas a lookup that throws keeps the choice.
   */
  method ErrorAnswerResetsChoice() returns (afterErrorAnswer: string, afterThrow: string, line: Option<(string, string)>)
    ensures afterErrorAnswer == "USD" && line == None
    ensures afterThrow == "INR"
  {
    var answered := new PricingSection();
    answered.Toggle();
    answered.Select("INR");
    answered.GeoSuccess(None);
    afterErrorAnswer, line := answered.currencyCode, answered.AutoDetectedLine();
    var threw := new PricingSection();
    threw.Toggle();
    threw.Select("INR");
    threw.GeoFailure();
    afterThrow := threw.currencyCode;
  }
}
