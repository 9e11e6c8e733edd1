/** The currency hook: a one-off country detection decides whether prices are
    shown in rupees or converted to dollars. */
module Currency {
  import opened Js

  /** Rupees per dollar. */
  const PkrToUsdRate: nat := 280

  datatype CurrencyInfo = CurrencyInfo(symbol: string, code: string, rate: nat, isLoading: bool)

  /** What the hook returns for its two state fields. */
  function CurrencyFor(isLoading: bool, isPakistan: Option<bool>): (c: CurrencyInfo)
    ensures isLoading || isPakistan.None? ==> c == CurrencyInfo("Rs", "PKR", 1, true)
    ensures !isLoading && isPakistan == Some(true) ==> c == CurrencyInfo("Rs", "PKR", 1, false)
    ensures !isLoading && isPakistan == Some(false) ==> c == CurrencyInfo("$", "USD", PkrToUsdRate, false)
  {
    if isLoading || isPakistan.None? then CurrencyInfo("Rs", "PKR", 1, true)
    else if isPakistan.value then CurrencyInfo("Rs", "PKR", 1, false)
    else CurrencyInfo("$", "USD", PkrToUsdRate, false)
  }

  /** Prices are left unconverted exactly when they are shown in rupees, and
      only rupees come with the rupee symbol. */
  lemma RateOneIffPkr(isLoading: bool, isPakistan: Option<bool>)
    ensures var c := CurrencyFor(isLoading, isPakistan);
      && (c.rate == 1 <==> c.code == "PKR")
      && (c.symbol == "Rs" <==> c.code == "PKR")
  {
  }

  /** The outcome of the geolocation request: it failed (network or JSON
      error), or it answered with a `country_code`, possibly missing. */
  datatype Detection = Failed | Detected(countryCode: Option<string>)

  /** The hook's state. */
  class CurrencyHook {
    var isPakistan: Option<bool>
    var isLoading: bool

    constructor ()
      ensures isPakistan == None && isLoading
      ensures Info() == CurrencyInfo("Rs", "PKR", 1, true)
    {
      isPakistan := None;
      isLoading := true;
    }

    function Info(): CurrencyInfo
      reads this
    {
      CurrencyFor(isLoading, isPakistan)
    }

    /** `detectCountry`: a country code of "PK" means Pakistan, a failure is
        taken as Pakistan, and loading ends either way. */
    method Detect(outcome: Detection)
      modifies this
      ensures isPakistan == Some(outcome.Failed? || outcome.countryCode == Some("PK"))
      ensures !isLoading
      ensures outcome.Failed? ==> Info() == CurrencyInfo("Rs", "PKR", 1, false)
      ensures outcome.Detected? && outcome.countryCode != Some("PK") ==>
        Info() == CurrencyInfo("$", "USD", PkrToUsdRate, false)
    {
      match outcome {
        case Failed =>
          isPakistan := Some(true);
        case Detected(code) =>
          isPakistan := Some(code == Some("PK"));
      }
      isLoading := false;
    }
  }
}
